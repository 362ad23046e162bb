/** Every legal step keeps the invariant: one lemma per kind of write, then one per action. */
module Preservation {
  import opened Prelude
  import opened Charts
  import opened Stores
  import opened Protocol
  import opened Invariant

  // ---------------------------------------------------------------- what a step leaves alone

  /** `t` agrees with `s` on everything that concerns instance `i`. */
  ghost predicate SameInstance(s: State, t: State, i: string) {
    && i in s.store.instances && i in t.store.instances && t.store.instances[i] == s.store.instances[i]
    && s.clock <= t.clock
    && i in s.born && i in t.born && t.born[i] == s.born[i]
    && Agree(t.owner, s.owner, i) && Agree(t.parks, s.parks, i) && Agree(t.closer, s.closer, i)
    && (i in s.owner ==> s.owner[i] in t.drivers && s.owner[i] in s.drivers && t.drivers[s.owner[i]] == s.drivers[s.owner[i]]
                         && Agree(t.store.executions, s.store.executions, s.owner[i]))
    && (i in s.parks ==> Agree(t.store.executions, s.store.executions, s.parks[i]))
    && (CloserOK(s, i) ==> CloserOK(t, i))
    && t.hooks[i] == s.hooks[i] && (i in t.lost <==> i in s.lost) && (HookPending(t, i) <==> HookPending(s, i))
  }

  lemma OwnerFrame(s: State, t: State, i: string, d: Driver, r: InstanceRecord)
    requires i in s.born && i in t.born && t.born[i] == s.born[i] && Agree(t.parks, s.parks, i)
    requires i in s.parks ==> Agree(t.store.executions, s.store.executions, s.parks[i])
    requires OwnerOK(s, i, d, r)
    ensures OwnerOK(t, i, d, r)
  {
    hide CopyOK, TrackOK, DeciderOK, ClosingOK, Wakeable, OnChart, SamePin, AgreeOutside;
    TrackFrame(s, t, i, d, r);
  }

  lemma TrackFrame(s: State, t: State, i: string, d: Driver, r: InstanceRecord)
    requires i in s.born && i in t.born && t.born[i] == s.born[i]
    ensures TrackOK(s, i, d, r) == TrackOK(t, i, d, r)
    ensures CopyOK(s, i, d, r) == CopyOK(t, i, d, r)
  {
  }

  lemma InstanceFrame(s: State, t: State, i: string)
    requires SameInstance(s, t, i) && InstanceOK(s, i)
    ensures InstanceOK(t, i)
  {
    hide OwnerOK, OnChart, AgreeOutside, Names, Wakeable, TerminalAt, HookPending;
    if i in s.owner {
      OwnerFrame(s, t, i, s.drivers[s.owner[i]], s.store.instances[i]);
    }
  }

  /** `t` agrees with `s` on everything that concerns a closed execution `e`. */
  lemma ClosedFrame(s: State, t: State, e: string)
    requires e in s.store.executions && e in s.drivers && ExecutionOK(s, e) && s.store.executions[e].outcome.Some?
    requires e in t.store.executions && e in t.drivers
    requires t.store.executions[e] == s.store.executions[e] && t.drivers[e] == s.drivers[e] && s.clock <= t.clock
    requires var i := s.store.executions[e].instanceId;
             && i in t.store.instances
             && Agree(t.parks, s.parks, i) && Agree(t.closer, s.closer, i) && Agree(t.owner, s.owner, i)
             && t.store.instances[i].status == s.store.instances[i].status
             && t.store.instances[i].chartDef == s.store.instances[i].chartDef
             && (i in s.owner ==> s.owner[i] in s.store.executions && s.owner[i] in t.store.executions
                                  && t.store.executions[s.owner[i]].startedAt == s.store.executions[s.owner[i]].startedAt)
             && (i in s.parks ==> s.parks[i] in s.store.executions && s.parks[i] in t.store.executions
                                  && t.store.executions[s.parks[i]].startedAt == s.store.executions[s.parks[i]].startedAt)
    ensures ExecutionOK(t, e)
  {
  }

  /** A pass is undisturbed by a step that leaves its victims, their instances and its announcement alone. */
  lemma PassFrame(s: State, t: State, r: string)
    requires r in s.passes && PassOK(s, r)
    requires r in t.passes && t.passes[r] == s.passes[r]
    requires forall x: Execution :: Victim(s, x) ==> Victim(t, x)
    requires forall x: Execution :: Victim(s, x) ==>
               && Agree(t.store.instances, s.store.instances, x.instanceId)
               && Agree(t.parks, s.parks, x.instanceId)
               && (x.instanceId in s.parks ==> Agree(t.store.executions, s.store.executions, s.parks[x.instanceId]))
    requires forall i :: i in s.closer ==> Agree(t.closer, s.closer, i)
    requires forall i :: i in s.store.instances ==> s.store.instances[i].id == i
    ensures PassOK(t, r)
  {
    var p := s.passes[r];
    if p.pc.Writing? {
      assert Victim(s, p.pc.x);
    } else if p.pc.Searching? {
      assert Victim(s, p.pc.x);
    }
  }

  // ---------------------------------------------------------------- steps that write nothing

  lemma OwnerIsBusy(s: State, i: string, d: Driver, r: InstanceRecord)
    requires i in s.born && OwnerOK(s, i, d, r)
    ensures !d.pc.Hooking? && !d.pc.Finished?
  {
  }

  ghost predicate OwnerMove(s: State, e: string, d: Driver) {
    Inv(s) && e in s.drivers && !s.drivers[e].pc.Crashed?
    && s.store.executions[e].outcome.None?
    && d.resume == s.drivers[e].resume && d.inst.id == s.drivers[e].inst.id
    && var i := s.store.executions[e].instanceId; i in s.born && i in s.store.instances && OwnerOK(s, i, d, s.store.instances[i])
  }

  lemma OwnerStepInstance(s: State, e: string, d: Driver, j: string)
    requires OwnerMove(s, e, d) && j in s.store.instances
    ensures InstanceOK(s.(drivers := s.drivers[e := d]), j)
  {
    hide OwnerOK, ClosedOK, OnChart, AgreeOutside, Names, Wakeable, TerminalAt;
    var t := s.(drivers := s.drivers[e := d]);
    assert ExecutionOK(s, e);
    var i := s.store.executions[e].instanceId;
    assert InstanceOK(s, i) && InstanceOK(s, j);
    OwnerIsBusy(s, i, s.drivers[e], s.store.instances[i]);
    OwnerIsBusy(s, i, d, s.store.instances[i]);
    assert HookPending(t, j) <==> HookPending(s, j);
    if j == i {
      OwnerFrame(s, t, i, d, s.store.instances[i]);
    } else {
      if j in s.owner { assert ExecutionOK(s, s.owner[j]); }
      InstanceFrame(s, t, j);
    }
  }

  lemma OwnerStepExecution(s: State, e: string, d: Driver, f: string)
    requires OwnerMove(s, e, d) && f in s.store.executions
    ensures ExecutionOK(s.(drivers := s.drivers[e := d]), f)
  {
    var t := s.(drivers := s.drivers[e := d]);
    assert ExecutionOK(s, e) && ExecutionOK(s, f);
    if f != e && s.store.executions[f].outcome.Some? {
      var j := s.store.executions[f].instanceId;
      assert InstanceOK(s, j);
      ClosedFrame(s, t, f);
    }
  }

  lemma OwnerStepPasses(s: State, e: string, d: Driver)
    requires OwnerMove(s, e, d)
    ensures PassesOK(s.(drivers := s.drivers[e := d]))
  {
    var t := s.(drivers := s.drivers[e := d]);
    forall i | i in s.store.instances ensures s.store.instances[i].id == i { assert InstanceOK(s, i); }
    forall r | r in t.passes ensures PassOK(t, r) {
      PassFrame(s, t, r);
    }
  }

  /** The owner of a running instance does something local. */
  lemma OwnerStep(s: State, e: string, d: Driver)
    requires OwnerMove(s, e, d)
    ensures Inv(s.(drivers := s.drivers[e := d]))
  {
    hide InstanceOK, ExecutionOK, OwnerOK, PassesOK, DeliveriesUnique;
    var t := s.(drivers := s.drivers[e := d]);
    forall j | j in t.store.instances ensures InstanceOK(t, j) { OwnerStepInstance(s, e, d, j); }
    forall f | f in t.store.executions ensures ExecutionOK(t, f) { OwnerStepExecution(s, e, d, f); }
    OwnerStepPasses(s, e, d);
  }

  // ---------------------------------------------------------------- a driver whose execution is closed

  /** It moves on or dies; `hooks` and `lost` account for the notice it was about to deliver. */
  ghost predicate RetiredMove(s: State, e: string, d: Driver, hooks: multiset<string>, lost: set<string>) {
    Inv(s) && e in s.drivers && !s.drivers[e].pc.Crashed? && s.store.executions[e].outcome.Some?
    && d == s.drivers[e].(pc := d.pc) && (d.pc.Finished? || d.pc.Crashed? || d.pc.Releasing?)
    && s.store.executions[e].instanceId in s.store.instances
    && (d.pc.Releasing? ==> s.store.instances[s.store.executions[e].instanceId].status.Failed? && !d.first)
    && (if s.drivers[e].pc.Hooking?
        then (hooks == s.hooks + multiset{s.store.executions[e].instanceId} && lost == s.lost)
             || (hooks == s.hooks && lost == s.lost + {s.store.executions[e].instanceId})
        else hooks == s.hooks && lost == s.lost)
  }

  ghost function Retire(s: State, e: string, d: Driver, hooks: multiset<string>, lost: set<string>): State {
    s.(drivers := s.drivers[e := d], hooks := hooks, lost := lost)
  }

  lemma RetiredStepInstance(s: State, e: string, d: Driver, hooks: multiset<string>, lost: set<string>, j: string)
    requires RetiredMove(s, e, d, hooks, lost) && j in s.store.instances
    ensures InstanceOK(Retire(s, e, d, hooks, lost), j)
  {
    hide OwnerOK, OnChart, AgreeOutside, Names, Wakeable, TerminalAt, PassesOK, DeliveriesUnique;
    var t := Retire(s, e, d, hooks, lost);
    assert ExecutionOK(s, e);
    var i := s.store.executions[e].instanceId;
    assert InstanceOK(s, i) && InstanceOK(s, j);
    if j in s.owner {
      assert ExecutionOK(s, s.owner[j]);
      OwnerFrame(s, t, j, s.drivers[s.owner[j]], s.store.instances[j]);
    }
    if j != i {
      assert HookPending(t, j) <==> HookPending(s, j);
      InstanceFrame(s, t, j);
    }
  }

  lemma RetiredStepExecution(s: State, e: string, d: Driver, hooks: multiset<string>, lost: set<string>, f: string)
    requires RetiredMove(s, e, d, hooks, lost) && f in s.store.executions
    ensures ExecutionOK(Retire(s, e, d, hooks, lost), f)
  {
    hide InstanceOK, PassesOK, DeliveriesUnique, HookPending;
    var t := Retire(s, e, d, hooks, lost);
    assert ExecutionOK(s, e) && ExecutionOK(s, f);
  }

  lemma RetiredStepPasses(s: State, e: string, d: Driver, hooks: multiset<string>, lost: set<string>)
    requires RetiredMove(s, e, d, hooks, lost)
    ensures PassesOK(Retire(s, e, d, hooks, lost))
  {
    hide OwnerOK, OnChart, AgreeOutside, Names, Wakeable, TerminalAt, HookPending, DeliveriesUnique, ExecutionOK, PassPcOK;
    var t := Retire(s, e, d, hooks, lost);
    forall i | i in s.store.instances ensures s.store.instances[i].id == i { assert InstanceOK(s, i); }
    forall r | r in t.passes ensures PassOK(t, r) {
      PassFrame(s, t, r);
    }
  }

  lemma RetiredStep(s: State, e: string, d: Driver, hooks: multiset<string>, lost: set<string>)
    requires RetiredMove(s, e, d, hooks, lost)
    ensures Inv(Retire(s, e, d, hooks, lost))
  {
    hide InstanceOK, ExecutionOK, PassesOK, DeliveriesUnique;
    var t := Retire(s, e, d, hooks, lost);
    forall j | j in t.store.instances ensures InstanceOK(t, j) { RetiredStepInstance(s, e, d, hooks, lost, j); }
    forall f | f in t.store.executions ensures ExecutionOK(t, f) { RetiredStepExecution(s, e, d, hooks, lost, f); }
    RetiredStepPasses(s, e, d, hooks, lost);
  }

  // ---------------------------------------------------------------- saving

  ghost predicate SaveMove(s: State, e: string) {
    Inv(s) && e in s.drivers && s.drivers[e].pc.Saving?
  }

  /** A driver between a transition and its save still owns its instance. */
  lemma BusyOwns(s: State, e: string)
    requires Inv(s) && e in s.drivers
    requires var pc := s.drivers[e].pc; pc.Deciding? || pc.Saving? || pc.Closing? || pc.ReleaseClosing?
    ensures e in s.store.executions && s.store.executions[e].outcome.None?
    ensures var i := s.store.executions[e].instanceId;
            && Owns(s, e, i) && i in s.store.instances && i in s.born && s.drivers[e].inst.id == i
            && InstanceOK(s, i) && OwnerOK(s, i, s.drivers[e], s.store.instances[i])
            && s.store.instances[i].id == i && s.store.executions[e].id == e
            && s.store.instances[i].status.Running?
  {
    hide InstancesOK, PassesOK, DeliveriesUnique, OwnerOK, OnChart, HookOK;
    assert ExecutionOK(s, e);
    var i := s.store.executions[e].instanceId;
    RowAndOwner(s, i);
  }

  lemma RowAndOwner(s: State, i: string)
    requires Inv(s) && i in s.store.instances
    ensures InstanceOK(s, i) && RowOK(s, i) && RunningOK(s, i) && HookOK(s, i)
  {
    hide RowOK, RunningOK, HookOK, PassesOK, DeliveriesUnique;
    assert InstanceOK(s, i);
  }

  lemma SaverRuns(s: State, i: string, d: Driver, r: InstanceRecord)
    requires i in s.born && OwnerOK(s, i, d, r) && d.pc.Saving?
    ensures d.inst.status.Running? && d.inst.chartDef == r.chartDef
  {
  }

  lemma SaveKeepsOwner(s: State, e: string)
    requires SaveMove(s, e)
    ensures var i := s.store.executions[e].instanceId; var t := DoSave(s, e);
            i in t.born && i in t.store.instances && OwnerOK(t, i, t.drivers[e], t.store.instances[i])
  {
    hide InstancesOK, ExecutionsOK, PassesOK, DeliveriesUnique, HookOK, AgreeOutside, Wakeable, OnChart;
    BusyOwns(s, e);
  }

  lemma SaveStepInstance(s: State, e: string, j: string)
    requires SaveMove(s, e) && j in s.store.instances
    ensures InstanceOK(DoSave(s, e), j)
  {
    hide OwnerOK, ClosedOK, PassesOK, DeliveriesUnique;
    var t := DoSave(s, e);
    BusyOwns(s, e);
    var i := s.store.executions[e].instanceId;
    RowAndOwner(s, j);
    if j == i {
      SaveKeepsOwner(s, e);
      SavedRow(s, e);
    } else {
      if j in s.owner { assert ExecutionOK(s, s.owner[j]); }
      InstanceFrame(s, t, j);
    }
  }

  lemma SavedRow(s: State, e: string)
    requires SaveMove(s, e)
    ensures s.store.executions[e].instanceId in DoSave(s, e).store.instances && RowOK(DoSave(s, e), s.store.executions[e].instanceId)
  {
    hide InstancesOK, ExecutionsOK, PassesOK, DeliveriesUnique, HookOK, OriginOK;
    BusyOwns(s, e);
    var i := s.store.executions[e].instanceId;
    WalkOnChart(s, i, s.drivers[e], s.store.instances[i]);
  }

  /** Where a working copy stands, a walk from the initial state reaches; its payload changed only at state names. */
  lemma WalkOnChart(s: State, i: string, d: Driver, r: InstanceRecord)
    requires i in s.born && OnChart(r) && OriginOK(s, i, d, r) && TrackOK(s, i, d, r) && CopyOK(s, i, d, r)
    ensures OnChart(d.inst)
    ensures AgreeOutside(d.inst.payload, s.born[i], Names(r.chartDef.states))
  {
    ReachSelf(r.chartDef, r.chartDef.initial);
    ReachJoin(r.chartDef, r.chartDef.initial, Home(d, r.chartDef), d.inst.current);
  }

  lemma SaveStepExecution(s: State, e: string, f: string)
    requires SaveMove(s, e) && f in s.store.executions
    ensures ExecutionOK(DoSave(s, e), f)
  {
    hide OwnerOK, InstancesOK, PassesOK, DeliveriesUnique, HookOK, OnChart, RunningOK;
    var t := DoSave(s, e);
    BusyOwns(s, e);
    assert ExecutionOK(s, e) && ExecutionOK(s, f);
    var j := s.store.executions[f].instanceId;
    RowAndOwner(s, j);
    SaverRuns(s, s.drivers[e].inst.id, s.drivers[e], s.store.instances[s.drivers[e].inst.id]);
    if f != e && s.store.executions[f].outcome.Some? {
      if j in s.owner { OwnerStands(s, j); }
      ClosedFrame(s, t, f);
    }
  }

  /** The owner of a running instance is one of its executions. */
  lemma OwnerStands(s: State, j: string)
    requires Inv(s) && j in s.owner
    ensures var e := s.owner[j]; e in s.store.executions && e in s.drivers && s.store.executions[e].instanceId == j
  {
    hide OwnerOK, RowOK, HookOK, ExecutionsOK, PassesOK, DeliveriesUnique;
    assert InstanceOK(s, j);
  }

  lemma HasBirth(s: State, j: string)
    requires Inv(s)
    ensures j in s.store.instances <==> j in s.born
  {
    hide InstancesOK, ExecutionsOK, PassesOK, DeliveriesUnique;
  }

  /** Who wrote a final status was a driver of that instance, whose execution is closed. */
  lemma CloserStands(s: State, i: string)
    requires Inv(s) && i in s.store.instances
    ensures CloserOK(s, i)
  {
    hide RunningOK, HookOK, ExecutionsOK, PassesOK, DeliveriesUnique, CloserOK;
    assert InstanceOK(s, i);
  }

  /** No victim of a pass belongs to an instance whose owner is alive, nor is any a live driver's. */
  lemma VictimsElsewhere(s: State, e: string, i: string, x: Execution)
    requires Inv(s) && Victim(s, x)
    requires i in s.owner ==> s.owner[i] in s.drivers && !s.drivers[s.owner[i]].pc.Crashed?
    ensures x.instanceId in s.store.instances && x.instanceId in s.owner && s.owner[x.instanceId] == x.id
    ensures x.instanceId != i
  {
    hide InstanceOK, PassesOK, DeliveriesUnique, ClosedOK;
    assert ExecutionOK(s, x.id);
  }

  lemma SaveStepPasses(s: State, e: string)
    requires SaveMove(s, e)
    ensures PassesOK(DoSave(s, e))
  {
    hide InstanceOK, DeliveriesUnique, OwnerOK, ExecutionOK, PassPcOK;
    var t := DoSave(s, e);
    BusyOwns(s, e);
    forall i | i in s.store.instances ensures s.store.instances[i].id == i { RowId(s, i); }
    forall x: Execution | Victim(s, x)
      ensures Victim(t, x)
      ensures Agree(t.store.instances, s.store.instances, x.instanceId)
      ensures x.instanceId in s.parks ==> Agree(t.store.executions, s.store.executions, s.parks[x.instanceId])
    {
      VictimsElsewhere(s, e, s.store.executions[e].instanceId, x);
      if x.instanceId in s.parks { ParkStands(s, x.instanceId); }
    }
    forall r | r in t.passes ensures PassOK(t, r) {
      assert PassOK(s, r);
      PassFrame(s, t, r);
    }
  }

  lemma RowId(s: State, i: string)
    requires Inv(s) && i in s.store.instances
    ensures s.store.instances[i].id == i
  {
    hide RunningOK, HookOK, ExecutionsOK, PassesOK, DeliveriesUnique;
    assert InstanceOK(s, i);
  }

  /** The execution an instance last parked at is one of its own, closed as suspended. */
  lemma ParkStands(s: State, i: string)
    requires Inv(s) && i in s.parks
    ensures i in s.store.instances && Parked(s.store, i, s.parks[i])
  {
    hide RunningOK, HookOK, ExecutionsOK, PassesOK, DeliveriesUnique;
    assert InstanceOK(s, i);
  }

  lemma SavingStep(s: State, e: string)
    requires SaveMove(s, e)
    ensures Inv(DoSave(s, e))
  {
    hide InstanceOK, ExecutionOK, PassesOK, OwnerOK;
    var t := DoSave(s, e);
    BusyOwns(s, e);
    forall j | j in t.store.instances ensures InstanceOK(t, j) { SaveStepInstance(s, e, j); }
    forall f | f in t.store.executions ensures ExecutionOK(t, f) { SaveStepExecution(s, e, f); }
    SaveStepPasses(s, e);
  }

  // ---------------------------------------------------------------- closing an execution

  /**
   * The open execution `e` is closed with the row `i` (before the store stamps it). `d` is its driver
   * afterwards; `closer` and `passes` are the new history and passes.
   */
  ghost function Shut(s: State, e: string, i: InstanceRecord, outcome: Outcome, cause: Option<Cause>,
                      d: Driver, closer: map<string, Closer>, passes: map<string, Pass>): State {
    s.(store := CloseIn(s.store, i, e, outcome, cause, s.clock + 1), clock := s.clock + 1,
       drivers := s.drivers[e := d], owner := Disown(s, i.id, e),
       parks := if outcome.OutcomeSuspended? then s.parks[i.id := e] else s.parks,
       closer := closer, passes := passes)
  }

  /** The row being written is fit to rest: suspended and wakeable where the last park says, or final. */
  ghost predicate RestOK(s: State, i: InstanceRecord, outcome: Outcome, cause: Option<Cause>) {
    match i.status
    case Running => false
    case Suspended =>
      && Wakeable(i)
      && (if outcome.OutcomeSuspended? then cause.None?
          else outcome.OutcomeCrashed? && cause.Some? && ParkedAt(s, i.id, i.current, i.wakeOn))
    case Done => outcome.OutcomeDone? && cause.None? && TerminalAt(i.chartDef, i.current)
    case Failed => (outcome.OutcomeFailed? || outcome.OutcomeCrashed?) && cause.Some?
  }

  /** A final status names its closer, who has yet to deliver the notice; anything else leaves the notices alone. */
  ghost predicate NoticeOK(s: State, e: string, i: InstanceRecord, d: Driver, closer: map<string, Closer>, passes: map<string, Pass>) {
    if Final(i.status) then
      i.id in closer && closer == s.closer[i.id := closer[i.id]]
      && match closer[i.id]
         case ByDriver(f) => f == e && d.pc.Hooking? && (d.pc.cause.Some? ==> i.status.Failed?) && LateIfInvalid(d, d.pc.cause)
         case ByPass(r) => d.pc.Crashed? && r in passes && passes[r].pc.Announcing? && passes[r].pc.x.instanceId == i.id
    else closer == s.closer && (d.pc.Finished? || d.pc.Crashed?)
  }

  ghost predicate SameNotices(s: State, i: string, passes: map<string, Pass>) {
    forall j: string, r: string {:trigger Announces(passes, r, j)} :: j != i ==> (Announces(passes, r, j) <==> Announces(s.passes, r, j))
  }

  ghost predicate Announces(passes: map<string, Pass>, r: string, j: string) {
    r in passes && passes[r].pc.Announcing? && passes[r].pc.x.instanceId == j
  }

  ghost predicate ShutMove(s: State, e: string, i: InstanceRecord, outcome: Outcome, cause: Option<Cause>,
                           d: Driver, closer: map<string, Closer>, passes: map<string, Pass>) {
    && Inv(s) && e in s.drivers && Owns(s, e, i.id) && i.id in s.store.instances && i.id in s.born
    && (SamePin(i, s.store.instances[i.id]) && i.version == s.store.instances[i.id].version && OnChart(i)
        && AgreeOutside(i.payload, s.born[i.id], Names(i.chartDef.states)))
    && RestOK(s, i, outcome, cause) && cause != Some(StateNotFound)
    && d.inst.id == s.drivers[e].inst.id && d.resume == s.drivers[e].resume
    && NoticeOK(s, e, i, d, closer, passes)
    && SameNotices(s, i.id, passes)
  }

  /** The write stamps do not bear on where a row stands. */
  lemma StampKeeps(i: InstanceRecord, now: nat)
    ensures OnChart(Stamp(i, now)) == OnChart(i) && Wakeable(Stamp(i, now)) == Wakeable(i)
  {
  }

  lemma ShutRow(s: State, e: string, i: InstanceRecord, outcome: Outcome, cause: Option<Cause>,
                d: Driver, closer: map<string, Closer>, passes: map<string, Pass>)
    requires ShutMove(s, e, i, outcome, cause, d, closer, passes)
    ensures RowOK(Shut(s, e, i, outcome, cause, d, closer, passes), i.id)
  {
    hide InstancesOK, PassesOK, DeliveriesUnique, SameNotices, RunningOK, ClosedOK, HookOK, ExecutionOK, OnChart, Wakeable, AgreeOutside, Names;
    OwnerStands(s, i.id);
    RowAndOwner(s, i.id);
    StampKeeps(i, s.clock + 1);
    ParkIsClosed(s, e, i.id);
  }

  /** The last park of an instance is never its open execution. */
  lemma ParkIsClosed(s: State, e: string, i: string)
    requires Inv(s) && Owns(s, e, i)
    ensures i in s.parks ==> s.parks[i] != e
    ensures e in s.store.executions && s.store.executions[e].outcome.None? && s.store.executions[e].instanceId == i
  {
    hide RunningOK, HookOK, PassesOK, DeliveriesUnique, ClosedOK;
    OwnerStands(s, i);
    assert InstanceOK(s, i);
    assert ExecutionOK(s, e);
  }

  lemma ShutHook(s: State, e: string, i: InstanceRecord, outcome: Outcome, cause: Option<Cause>,
                 d: Driver, closer: map<string, Closer>, passes: map<string, Pass>)
    requires ShutMove(s, e, i, outcome, cause, d, closer, passes)
    ensures HookOK(Shut(s, e, i, outcome, cause, d, closer, passes), i.id)
  {
    hide InstancesOK, ExecutionsOK, PassesOK, DeliveriesUnique, SameNotices, RunningOK, OnChart, AgreeOutside, Wakeable;
    RowAndOwner(s, i.id);
  }

  lemma ShutOtherNotice(s: State, e: string, i: InstanceRecord, outcome: Outcome, cause: Option<Cause>,
                        d: Driver, closer: map<string, Closer>, passes: map<string, Pass>, j: string)
    requires ShutMove(s, e, i, outcome, cause, d, closer, passes) && j in s.store.instances && j != i.id
    ensures HookPending(Shut(s, e, i, outcome, cause, d, closer, passes), j) == HookPending(s, j)
    ensures Agree(closer, s.closer, j)
  {
    hide RunningOK, ExecutionOK, PassesOK, DeliveriesUnique, RestOK, OnChart, AgreeOutside, Wakeable, HookOK, Names, InstancesOK, CloseRow, Stamp;
    ParkIsClosed(s, e, i.id);
    RowAndOwner(s, j);
    if j in s.closer && s.closer[j].ByPass? {
      assert Announces(passes, s.closer[j].r, j) <==> Announces(s.passes, s.closer[j].r, j);
    }
  }

  lemma ShutOtherInstance(s: State, e: string, i: InstanceRecord, outcome: Outcome, cause: Option<Cause>,
                          d: Driver, closer: map<string, Closer>, passes: map<string, Pass>, j: string)
    requires ShutMove(s, e, i, outcome, cause, d, closer, passes) && j in s.store.instances && j != i.id
    ensures InstanceOK(Shut(s, e, i, outcome, cause, d, closer, passes), j)
  {
    hide OwnerOK, ExecutionOK, PassesOK, DeliveriesUnique, RestOK, OnChart, AgreeOutside, Wakeable, HookOK, Names, InstancesOK,
         HookPending, NoticeOK, SameNotices, SamePin;
    var t := Shut(s, e, i, outcome, cause, d, closer, passes);
    ParkIsClosed(s, e, i.id);
    RowAndOwner(s, j);
    if j in s.parks { ParkStands(s, j); }
    if j in s.owner { OwnerStands(s, j); }
    ShutOtherNotice(s, e, i, outcome, cause, d, closer, passes, j);
    InstanceFrame(s, t, j);
  }

  lemma ShutExecution(s: State, e: string, i: InstanceRecord, outcome: Outcome, cause: Option<Cause>,
                      d: Driver, closer: map<string, Closer>, passes: map<string, Pass>)
    requires ShutMove(s, e, i, outcome, cause, d, closer, passes)
    ensures ExecutionOK(Shut(s, e, i, outcome, cause, d, closer, passes), e)
  {
    hide InstancesOK, PassesOK, DeliveriesUnique, SameNotices, AgreeOutside, OwnerOK, TerminalAt, Reachable, SignalsAt, RunningOK, HookOK;
    OwnerStands(s, i.id);
    RowAndOwner(s, i.id);
    assert ExecutionOK(s, e);
  }

  lemma ShutSibling(s: State, e: string, i: InstanceRecord, outcome: Outcome, cause: Option<Cause>,
                    d: Driver, closer: map<string, Closer>, passes: map<string, Pass>, f: string)
    requires ShutMove(s, e, i, outcome, cause, d, closer, passes) && f in s.store.executions && f != e
    ensures ExecutionOK(Shut(s, e, i, outcome, cause, d, closer, passes), f)
  {
    hide InstancesOK, PassesOK, DeliveriesUnique, SameNotices, OnChart, AgreeOutside, Wakeable, OwnerOK, TerminalAt, HookOK, RestOK;
    var t := Shut(s, e, i, outcome, cause, d, closer, passes);
    OwnerStands(s, i.id);
    RowAndOwner(s, i.id);
    assert ExecutionOK(s, f);
    var j := s.store.executions[f].instanceId;
    if j != i.id {
      RowAndOwner(s, j);
      if j in s.owner { OwnerStands(s, j); }
      if s.store.executions[f].outcome.Some? { ClosedFrame(s, t, f); }
    }
  }

  lemma ShutPasses(s: State, e: string, i: InstanceRecord, outcome: Outcome, cause: Option<Cause>,
                   d: Driver, closer: map<string, Closer>, r: string)
    requires ShutMove(s, e, i, outcome, cause, d, closer, s.passes) && !s.drivers[e].pc.Crashed? && r in s.passes
    ensures PassOK(Shut(s, e, i, outcome, cause, d, closer, s.passes), r)
  {
    hide InstanceOK, PassPcOK, DeliveriesUnique, SameNotices, OnChart, AgreeOutside, ExecutionOK, RestOK;
    var t := Shut(s, e, i, outcome, cause, d, closer, s.passes);
    forall k | k in s.store.instances ensures s.store.instances[k].id == k { RowId(s, k); }
    forall x: Execution | Victim(s, x)
      ensures Victim(t, x)
      ensures Agree(t.store.instances, s.store.instances, x.instanceId) && Agree(t.parks, s.parks, x.instanceId)
      ensures x.instanceId in s.parks ==> Agree(t.store.executions, s.store.executions, s.parks[x.instanceId])
    {
      VictimsElsewhere(s, e, i.id, x);
      OwnerStands(s, i.id);
      if x.instanceId in s.parks { ParkStands(s, x.instanceId); }
    }
    forall k | k in s.closer ensures Agree(closer, s.closer, k) {
      RowAndNotice(s, i.id);
    }
    assert PassOK(s, r);
    PassFrame(s, t, r);
  }

  /** A running instance has no closer. */
  lemma RowAndNotice(s: State, i: string)
    requires Inv(s) && i in s.owner
    ensures i !in s.closer
  {
    hide RunningOK, HookOK, ExecutionsOK, PassesOK, DeliveriesUnique;
    assert InstanceOK(s, i);
  }

  lemma ShutStep(s: State, e: string, i: InstanceRecord, outcome: Outcome, cause: Option<Cause>,
                 d: Driver, closer: map<string, Closer>, passes: map<string, Pass>)
    requires ShutMove(s, e, i, outcome, cause, d, closer, passes)
    requires PassesOK(Shut(s, e, i, outcome, cause, d, closer, passes))
    ensures Inv(Shut(s, e, i, outcome, cause, d, closer, passes))
  {
    hide RowOK, RunningOK, HookOK, ExecutionOK, PassesOK, OnChart, RestOK, SameNotices, AgreeOutside;
    var t := Shut(s, e, i, outcome, cause, d, closer, passes);
    OwnerStands(s, i.id);
    forall j | j in t.store.instances ensures InstanceOK(t, j) {
      if j == i.id {
        ShutRow(s, e, i, outcome, cause, d, closer, passes);
        ShutHook(s, e, i, outcome, cause, d, closer, passes);
        assert RunningOK(t, j) by { NotRunning(t, j); }
      } else {
        ShutOtherInstance(s, e, i, outcome, cause, d, closer, passes, j);
      }
    }
    forall f | f in t.store.executions ensures ExecutionOK(t, f) {
      if f == e { ShutExecution(s, e, i, outcome, cause, d, closer, passes); }
      else { ShutSibling(s, e, i, outcome, cause, d, closer, passes, f); }
    }
  }

  lemma NotRunning(s: State, i: string)
    requires i in s.store.instances && i !in s.owner
    ensures RunningOK(s, i)
  {
  }

  // ---------------------------------------------------------------- admitting a drive

  function AdmittedExecution(e: string, id: string, trigger: Trigger, delivery: Option<string>, now: nat): Execution {
    NewExecution(e, id, trigger, delivery).(startedAt := now, heartbeatAt := now)
  }

  /** A new drive `d` takes instance row `row`, under a fresh execution `e`. */
  ghost function Admit(s: State, e: string, row: InstanceRecord, trigger: Trigger, delivery: Option<string>, d: Driver,
                       born: map<string, Payload>): State {
    s.(store := Store(s.store.instances[row.id := row],
                      s.store.executions[e := AdmittedExecution(e, row.id, trigger, delivery, s.clock + 1)]),
       clock := s.clock + 1, drivers := s.drivers[e := d], owner := s.owner[row.id := e], born := born)
  }

  ghost predicate BornWith(s: State, i: string, born: map<string, Payload>) {
    born.Keys == s.born.Keys + {i} && forall j {:trigger born[j]} :: j in s.born ==> born[j] == s.born[j]
  }

  ghost predicate AdmitMove(s: State, e: string, row: InstanceRecord, trigger: Trigger, delivery: Option<string>, d: Driver,
                            born: map<string, Payload>) {
    && Inv(s) && e !in s.store.executions && !DeliverySeen(s.store.executions, delivery)
    && row.id !in s.owner && row.id !in s.closer
    && row.status.Running? && row.updatedAt == s.clock + 1 && 1 <= row.createdAt <= s.clock + 1 && 1 <= row.version && OnChart(row)
    && BornWith(s, row.id, born)
    && AgreeOutside(row.payload, born[row.id], Names(row.chartDef.states))
    && (row.id in s.store.instances ==>
          !Final(s.store.instances[row.id].status) && s.store.instances[row.id].chartDef == row.chartDef)
    && d.inst.id == row.id && d.pc.Deciding?
    && trigger == (if d.resume.None? then OnStart else OnSignal(d.resume.value.signal))
    && OwnerOK(s.(born := born), row.id, d, row)
  }

  lemma AdmitInstance(s: State, e: string, row: InstanceRecord, trigger: Trigger, delivery: Option<string>, d: Driver, born: map<string, Payload>)
    requires AdmitMove(s, e, row, trigger, delivery, d, born)
    ensures InstanceOK(Admit(s, e, row, trigger, delivery, d, born), row.id)
  {
    hide OwnerOK, InstancesOK, ExecutionsOK, PassesOK, DeliveriesUnique, OnChart, AgreeOutside, Names, DeliverySeen;
    var t := Admit(s, e, row, trigger, delivery, d, born);
    if row.id in s.parks { ParkStands(s, row.id); }
    if row.id in s.store.instances { RowAndOwner(s, row.id); }
    OwnerFrame(s.(born := born), t, row.id, d, row);
  }

  lemma AdmitOtherInstance(s: State, e: string, row: InstanceRecord, trigger: Trigger, delivery: Option<string>, d: Driver,
                           born: map<string, Payload>, j: string)
    requires AdmitMove(s, e, row, trigger, delivery, d, born) && j in s.store.instances && j != row.id
    ensures InstanceOK(Admit(s, e, row, trigger, delivery, d, born), j)
  {
    hide Inv, OwnerOK, RowOK, OnChart, AgreeOutside, HookOK, DeliverySeen;
    var t := Admit(s, e, row, trigger, delivery, d, born);
    RowAndOwner(s, j);
    HasBirth(s, j);
    CloserStands(s, j);
    if j in s.parks { ParkStands(s, j); }
    if j in s.owner { OwnerStands(s, j); }
    InstanceFrame(s, t, j);
  }

  lemma AdmitExecution(s: State, e: string, row: InstanceRecord, trigger: Trigger, delivery: Option<string>, d: Driver,
                       born: map<string, Payload>, f: string)
    requires AdmitMove(s, e, row, trigger, delivery, d, born) && f in s.store.executions
    ensures ExecutionOK(Admit(s, e, row, trigger, delivery, d, born), f)
  {
    hide OwnerOK, InstancesOK, PassesOK, DeliveriesUnique, OnChart, AgreeOutside, Names, HookOK, DeliverySeen, Wakeable, ParkedAt, CloserOK,
         BornWith, ParkRecord, TerminalAt;
    var t := Admit(s, e, row, trigger, delivery, d, born);
    assert ExecutionOK(s, f);
    var j := s.store.executions[f].instanceId;
    RowAndOwner(s, j);
    if j in s.parks { ParkStands(s, j); }
    if j != row.id {
      if j in s.owner { OwnerStands(s, j); }
      if s.store.executions[f].outcome.Some? { ClosedFrame(s, t, f); }
    }
  }

  lemma AdmitNewExecution(s: State, e: string, row: InstanceRecord, trigger: Trigger, delivery: Option<string>, d: Driver, born: map<string, Payload>)
    requires AdmitMove(s, e, row, trigger, delivery, d, born)
    ensures ExecutionOK(Admit(s, e, row, trigger, delivery, d, born), e)
    ensures DeliveriesUnique(Admit(s, e, row, trigger, delivery, d, born).store)
  {
    hide OwnerOK, InstanceOK, ExecutionOK, PassesOK, OnChart, AgreeOutside, ClosedOK, BornWith;
    var t := Admit(s, e, row, trigger, delivery, d, born);
    assert ExecutionOK(t, e) by { FreshExecution(t, e); }
  }

  lemma FreshExecution(t: State, e: string)
    requires e in t.store.executions && e in t.drivers
    requires var x := t.store.executions[e];
             x.id == e && x.instanceId in t.store.instances && t.drivers[e].inst.id == x.instanceId
             && x.startedAt == x.heartbeatAt == t.clock && x.outcome.None? && x.finishedAt.None? && x.error.None?
             && Owns(t, e, x.instanceId)
             && x.trigger == (if t.drivers[e].resume.None? then OnStart else OnSignal(t.drivers[e].resume.value.signal))
    ensures ExecutionOK(t, e)
  {
  }

  lemma AdmitVictim(s: State, e: string, row: InstanceRecord, trigger: Trigger, delivery: Option<string>, d: Driver, born: map<string, Payload>,
                    x: Execution)
    requires AdmitMove(s, e, row, trigger, delivery, d, born) && Victim(s, x)
    ensures var t := Admit(s, e, row, trigger, delivery, d, born);
            Victim(t, x) && Agree(t.store.instances, s.store.instances, x.instanceId)
            && (x.instanceId in s.parks ==> Agree(t.store.executions, s.store.executions, s.parks[x.instanceId]))
  {
    hide Inv, OwnerOK, OnChart, AgreeOutside, DeliverySeen, BornWith;
    VictimsElsewhere(s, e, row.id, x);
    if x.instanceId in s.parks { ParkStands(s, x.instanceId); }
  }

  lemma AdmitPasses(s: State, e: string, row: InstanceRecord, trigger: Trigger, delivery: Option<string>, d: Driver, born: map<string, Payload>)
    requires AdmitMove(s, e, row, trigger, delivery, d, born)
    ensures PassesOK(Admit(s, e, row, trigger, delivery, d, born))
  {
    hide OwnerOK, InstanceOK, ExecutionOK, PassPcOK, DeliveriesUnique, OnChart, AgreeOutside, Names, DeliverySeen, BornWith, Victim;
    var t := Admit(s, e, row, trigger, delivery, d, born);
    forall k | k in s.store.instances ensures s.store.instances[k].id == k { RowId(s, k); }
    forall x: Execution | Victim(s, x)
      ensures Victim(t, x)
      ensures Agree(t.store.instances, s.store.instances, x.instanceId)
      ensures x.instanceId in s.parks ==> Agree(t.store.executions, s.store.executions, s.parks[x.instanceId])
    {
      AdmitVictim(s, e, row, trigger, delivery, d, born, x);
    }
    forall r | r in t.passes ensures PassOK(t, r) {
      assert PassOK(s, r);
      PassFrame(s, t, r);
    }
  }

  lemma AdmitDomains(s: State, e: string, row: InstanceRecord, trigger: Trigger, delivery: Option<string>, d: Driver, born: map<string, Payload>)
    requires AdmitMove(s, e, row, trigger, delivery, d, born)
    ensures Domains(Admit(s, e, row, trigger, delivery, d, born))
  {
    hide OwnerOK, InstanceOK, ExecutionOK, PassesOK, DeliveriesUnique, OnChart, AgreeOutside, DeliverySeen;
  }

  lemma AdmitStep(s: State, e: string, row: InstanceRecord, trigger: Trigger, delivery: Option<string>, d: Driver, born: map<string, Payload>)
    requires AdmitMove(s, e, row, trigger, delivery, d, born)
    ensures Inv(Admit(s, e, row, trigger, delivery, d, born))
  {
    hide InstanceOK, ExecutionOK, PassesOK, DeliveriesUnique, AdmitMove;
    var t := Admit(s, e, row, trigger, delivery, d, born);
    AdmitDomains(s, e, row, trigger, delivery, d, born);
    forall j | j in t.store.instances ensures InstanceOK(t, j) {
      if j == row.id { AdmitInstance(s, e, row, trigger, delivery, d, born); }
      else { AdmitOtherInstance(s, e, row, trigger, delivery, d, born, j); }
    }
    AdmitNewExecution(s, e, row, trigger, delivery, d, born);
    forall f | f in t.store.executions ensures ExecutionOK(t, f) {
      if f != e { AdmitExecution(s, e, row, trigger, delivery, d, born, f); }
    }
    AdmitPasses(s, e, row, trigger, delivery, d, born);
  }

  // ---------------------------------------------------------------- steps of a pass that write nothing

  /** Executions and passes are judged without looking at hooks, losses, births or the other passes. */
  lemma SameJudgement(s: State, t: State)
    requires t.store == s.store && t.clock == s.clock && t.drivers == s.drivers
    requires t.owner == s.owner && t.parks == s.parks && t.closer == s.closer
    ensures Domains(s) && Domains(t) ==> ExecutionsOK(t) == ExecutionsOK(s)
    ensures forall x: Execution :: Victim(t, x) == Victim(s, x)
    ensures forall r: string, pc: PassPc :: PassPcOK(t, r, pc) == PassPcOK(s, r, pc)
  {
    if Domains(s) && Domains(t) {
      forall f | f in s.store.executions ensures ExecutionOK(t, f) == ExecutionOK(s, f) {}
      assert ExecutionsOK(t) == ExecutionsOK(s) by { hide ExecutionOK; }
    }
  }

  /** Passes move on without announcing anything, or dropping an announcement. */
  lemma QuietPass(s: State, passes: map<string, Pass>)
    requires Inv(s) && PassesOK(s.(passes := passes))
    requires forall r: string, j: string {:trigger Announces(passes, r, j)} :: Announces(passes, r, j) <==> Announces(s.passes, r, j)
    ensures Inv(s.(passes := passes))
  {
    hide OwnerOK, RowOK, ExecutionsOK, PassesOK, DeliveriesUnique;
    var t := s.(passes := passes);
    SameJudgement(s, t);
    forall j | j in s.store.instances ensures InstanceOK(t, j) {
      assert InstanceOK(s, j);
      if j in s.closer && s.closer[j].ByPass? {
        assert Announces(passes, s.closer[j].r, j) <==> Announces(s.passes, s.closer[j].r, j);
      }
      if j in s.owner { OwnerStands(s, j); }
      CloserStands(s, j);
      InstanceFrame(s, t, j);
    }
  }

  /** Pass `r` delivers its announcement, or dies before it can. */
  ghost predicate ToldMove(s: State, r: string, passes: map<string, Pass>, hooks: multiset<string>, lost: set<string>) {
    && Inv(s) && r in s.passes && s.passes[r].pc.Announcing?
    && PassesOK(s.(passes := passes))
    && (forall q {:trigger q in passes} {:trigger passes[q]} :: q != r ==>
          (q in passes <==> q in s.passes) && (q in passes ==> passes[q] == s.passes[q]))
    && (r in passes ==> !passes[r].pc.Announcing?)
    && ((hooks == s.hooks + multiset{s.passes[r].pc.x.instanceId} && lost == s.lost)
        || (hooks == s.hooks && lost == s.lost + {s.passes[r].pc.x.instanceId}))
  }

  lemma ToldInstance(s: State, r: string, passes: map<string, Pass>, hooks: multiset<string>, lost: set<string>, j: string)
    requires ToldMove(s, r, passes, hooks, lost) && j in s.store.instances
    ensures InstanceOK(s.(passes := passes, hooks := hooks, lost := lost), j)
  {
    hide OwnerOK, RowOK, ExecutionsOK, DeliveriesUnique, Victim, WriteOK, AgreeOutside;
    var t := s.(passes := passes, hooks := hooks, lost := lost);
    assert InstanceOK(s, j);
    assert PassOK(s, r);
    if j in s.owner {
      OwnerStands(s, j);
      OwnerFrame(s, t, j, s.drivers[s.owner[j]], s.store.instances[j]);
    }
    CloserStands(s, j);
    if j == s.passes[r].pc.x.instanceId {
      assert HookPending(s, j) && !HookPending(t, j);
      RowAlike(s, t, j);
    } else {
      if j in s.closer && s.closer[j].ByPass? && s.closer[j].r != r {
        assert s.closer[j].r in passes <==> s.closer[j].r in s.passes;
      }
      assert HookPending(s, j) == HookPending(t, j);
      InstanceFrame(s, t, j);
    }
  }

  lemma RowAlike(s: State, t: State, j: string)
    requires j in s.store.instances && RowOK(s, j) && t.store == s.store && t.clock == s.clock && t.born == s.born
    requires t.owner == s.owner && t.parks == s.parks && t.closer == s.closer
    ensures RowOK(t, j)
  {
  }

  lemma ToldStep(s: State, r: string, passes: map<string, Pass>, hooks: multiset<string>, lost: set<string>)
    requires ToldMove(s, r, passes, hooks, lost)
    ensures Inv(s.(passes := passes, hooks := hooks, lost := lost))
  {
    hide InstanceOK, ExecutionsOK, DeliveriesUnique;
    var t := s.(passes := passes, hooks := hooks, lost := lost);
    var u := s.(passes := passes);
    SameJudgement(s, t);
    SameJudgement(u, t);
    assert PassOK(s, r);
    forall j | j in t.store.instances ensures InstanceOK(t, j) { ToldInstance(s, r, passes, hooks, lost, j); }
    forall q | q in t.passes ensures PassOK(t, q) { assert PassOK(u, q); }
  }
}
