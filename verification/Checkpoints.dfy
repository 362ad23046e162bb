/** Parks, wake sets, rollback and rejection: what a resting instance offers, and what an undone drive leaves behind. */
module Checkpoints {
  import opened Prelude
  import opened Charts
  import opened Stores
  import opened Protocol
  import opened Invariant
  import opened Preservation
  import opened Steps
  import opened Guarantees

  // ---------------------------------------------------------------- checkpoint agreement

  /**
   * A suspended instance always has a checkpoint, and whichever execution the store's search returns, it
   * recorded the instance's present state and wake set: after a park, a rejection or a rollback alike.
   */
  lemma SuspendedAgreesWithCheckpoint(s: State, i: string, at: string)
    requires Reached(s)
    ensures var st := s.store;
            i in st.instances && st.instances[i].status.Suspended? ==>
              && !NeverParked(st, i)
              && (LastPark(st, i, at) ==>
                    st.executions[at].suspendedAtState == st.instances[i].current
                    && st.executions[at].suspendedWakeOn == st.instances[i].wakeOn)
  {
    hide Inv, NeverParked, LastPark, RunningOK, HookOK, OnChart, Wakeable, AgreeOutside;
    ReachedInv(s);
    if i in s.store.instances {
      RowAndOwner(s, i);
      LastParkIsUnique(s, i, at);
    }
  }

  /**
   * A running instance's checkpoint is exactly where its drive was claimed, and it has none
   * exactly when its open execution is the Start drive.
   */
  lemma RunningAgreesWithCheckpoint(s: State, i: string, e: string, at: string)
    requires Reached(s)
    requires var st := s.store; i in st.instances && e in OpenOf(st, i)
    ensures e in s.drivers
            && (NeverParked(s.store, i) <==> s.store.executions[e].trigger.OnStart?)
            && (LastPark(s.store, i, at) ==>
                  s.drivers[e].origin.Some?
                  && s.store.executions[at].suspendedAtState == s.drivers[e].origin.value.current
                  && s.store.executions[at].suspendedWakeOn == s.drivers[e].origin.value.wakeOn)
  {
    hide InstancesOK, PassesOK, DeliveriesUnique, NeverParked, LastPark, RowOK, HookOK, OnChart, Wakeable, AgreeOutside, TrackOK, CopyOK, ClosedOK;
    ReachedInv(s);
    OpenIsOwner(s, i);
    RowAndOwner(s, i);
    LastParkIsUnique(s, i, at);
    assert ExecutionOK(s, e);
  }

  // ---------------------------------------------------------------- wake sets

  /** A suspended instance waits on exactly its state's signals, with something that can wake it, and each one routes. */
  lemma WakeSetsLive(s: State, i: string, signal: string)
    requires Reached(s)
    requires RestsSuspended(s, i)
    ensures var r := s.store.instances[i];
            && r.wakeOn == SignalsAt(r.chartDef, r.current)
            && (r.wakeOn != [] || r.wakeAt.Some?)
            && (signal in r.wakeOn ==>
                  signal != "" && Lookup(r.chartDef, r.current).Some?
                  && Resolve(Lookup(r.chartDef, r.current).value.transitions, signal).Some?)
  {
    hide Inv, RunningOK, HookOK, AgreeOutside, Reach, StateOK, DistinctNames;
    ReachedInv(s);
    RowAndOwner(s, i);
    var r := s.store.instances[i];
    if signal in r.wakeOn { SignalRoutes(r.chartDef, r.current, signal); }
  }

  predicate RestsSuspended(s: State, i: string) {
    i in s.store.instances && s.store.instances[i].status.Suspended?
  }

  /**
   * On its first step a resumed driver is never a cold entry: its signal is non-empty, and an executor that
   * answers with that signal as its event always moves the instance; it never hits "no transition".
   */
  lemma RoutedSignalMoves(s: State, e: string, output: Payload, wakeAt: Option<nat>)
    requires Reached(s)
    requires e in s.drivers && s.drivers[e].pc.Deciding? && s.drivers[e].first && s.drivers[e].resume.Some?
    ensures var d := s.drivers[e];
            && d.resume.value.signal != ""
            && Decide(d, Returns(Result(d.resume.value.signal, output, false, wakeAt))).pc.Saving?
  {
    hide InstancesOK, ExecutionsOK, PassesOK, DeliveriesUnique, HookOK, AgreeOutside, Reach, StateOK, DistinctNames, TrackOK;
    ReachedInv(s);
    BusyOwns(s, e);
    var d := s.drivers[e];
    SignalRoutes(d.inst.chartDef, d.inst.current, d.resume.value.signal);
  }

  // ---------------------------------------------------------------- rollback

  /**
   * Rolling a crashed drive back never strands the instance: it is suspended at the checkpoint, its wake set holds the
   * very signal that began the crashed drive, and delivering that signal again is admitted if and only if the execution
   * and delivery ids are new.
   */
  lemma RollbackIsWakeable(s: State, r: string, e: string, delivery: Option<string>, now: nat)
    requires Reached(s)
    requires r in s.passes && s.passes[r].pc.Writing? && s.passes[r].pc.duty.RollBack?
    ensures var t := DoPassClose(s, r);
            var x := s.passes[r].pc.x;
            && x.id in s.store.executions && s.store.executions[x.id].trigger.OnSignal?
            && x.instanceId in t.store.instances && t.store.instances[x.instanceId].status.Suspended?
            && var signal := s.store.executions[x.id].trigger.signal;
               signal in t.store.instances[x.instanceId].wakeOn
               && (ClaimIn(t.store, x.instanceId, signal, NewExecution(e, x.instanceId, OnSignal(signal), delivery), now).Admitted?
                   <==> e !in t.store.executions && !DeliverySeen(t.store.executions, delivery))
  {
    hide InstancesOK, DeliveriesUnique, OwnerOK, RowOK, HookOK, ClosedOK, Wakeable, OnChart, DeliverySeen;
    ReachedInv(s);
    var pc := s.passes[r].pc;
    assert PassOK(s, r);
    VictimRuns(s, pc.x);
    assert ExecutionOK(s, pc.x.id);
    RollbackRests(s, pc.x.instanceId, s.drivers[pc.x.id], s.store.instances[pc.x.instanceId], pc.inst);
    CloseKeepsTrigger(s, r);
  }

  /**
   * How far rollback is an undo. The row is the one that was claimed, but for the payload, which keeps what the crashed
   * drive saved, the write stamps, and the deadline, which is gone: it survives if and only if there was none.
   */
  lemma RollbackUndoes(s: State, r: string)
    requires Reached(s)
    requires r in s.passes && s.passes[r].pc.Writing? && s.passes[r].pc.duty.RollBack?
    ensures var x := s.passes[r].pc.x;
            var t := DoPassClose(s, r);
            && x.id in s.drivers && s.drivers[x.id].origin.Some?
            && x.instanceId in s.store.instances && x.instanceId in t.store.instances
            && var o, row, row' := s.drivers[x.id].origin.value, s.store.instances[x.instanceId], t.store.instances[x.instanceId];
               && row' == o.(payload := row.payload, version := row.version + 1, updatedAt := s.clock + 1, wakeAt := None)
               && (row'.wakeAt == o.wakeAt <==> o.wakeAt.None?)
  {
    hide InstancesOK, ExecutionsOK, DeliveriesUnique, OwnerOK, RowOK, ClosedOK, OnChart, Wakeable;
    ReachedInv(s);
    var pc := s.passes[r].pc;
    assert PassOK(s, r);
    VictimRuns(s, pc.x);
    var d, row := s.drivers[pc.x.id], s.store.instances[pc.x.instanceId];
    RollbackRests(s, pc.x.instanceId, d, row, pc.inst);
    OriginPin(s, pc.x.instanceId, d, row);
    CloseKeepsTrigger(s, r);
    RowTimes(s, pc.x.instanceId);
  }

  lemma OriginPin(s: State, i: string, d: Driver, r: InstanceRecord)
    requires i in s.born && OwnerOK(s, i, d, r) && d.origin.Some?
    ensures SamePin(d.origin.value, r) && d.origin.value.status.Suspended?
  {
    hide TrackOK, CopyOK, DeciderOK, ClosingOK, AgreeOutside, Wakeable, OnChart;
  }

  lemma RowTimes(s: State, i: string)
    requires Inv(s) && i in s.store.instances
    ensures 1 <= s.store.instances[i].createdAt
  {
    hide Inv, RunningOK, HookOK, OnChart, AgreeOutside;
    RowAndOwner(s, i);
  }

  /**
   * Retrying the crashed delivery itself, under a new execution id, succeeds if and only if it carried no delivery id:
   * the closed record keeps the id, and the store refuses a second execution with it.
   */
  lemma RetryAfterRollback(s: State, r: string, e: string, now: nat)
    requires Reached(s)
    requires r in s.passes && s.passes[r].pc.Writing? && s.passes[r].pc.duty.RollBack? && e !in s.store.executions
    ensures var t := DoPassClose(s, r);
            var x := s.passes[r].pc.x;
            && x.id in s.store.executions && s.store.executions[x.id].trigger.OnSignal?
            && var signal, delivery := s.store.executions[x.id].trigger.signal, s.store.executions[x.id].deliveryId;
               var claim := ClaimIn(t.store, x.instanceId, signal, NewExecution(e, x.instanceId, OnSignal(signal), delivery), now);
               (claim.Admitted? <==> delivery.None?) && (delivery.Some? ==> claim == Refused(DuplicateDelivery))
  {
    hide Reached, DoPassClose, ClaimIn, DeliverySeen;
    var x := s.passes[r].pc.x;
    PassCloseKeepsIds(s, r);
    RollbackIsWakeable(s, r, e, s.store.executions[x.id].deliveryId, now);
    ClosedIdIsSeen(DoPassClose(s, r).store, x.id);
    RetryVerdict(DoPassClose(s, r).store, x.instanceId, s.store.executions[x.id].trigger.signal,
                 NewExecution(e, x.instanceId, s.store.executions[x.id].trigger, s.store.executions[x.id].deliveryId), now);
  }

  /** Claiming a suspended row on a signal it waits for, under a new execution id, depends on the delivery id alone. */
  lemma RetryVerdict(st: Store, i: string, signal: string, x: Execution, now: nat)
    requires i in st.instances && st.instances[i].status.Suspended? && signal in st.instances[i].wakeOn && x.id !in st.executions
    ensures var claim := ClaimIn(st, i, signal, x, now);
            if DeliverySeen(st.executions, x.deliveryId) then claim == Refused(DuplicateDelivery) else claim.Admitted?
  {
    hide DeliverySeen;
  }

  /** An id on record has been seen; no id never is. */
  lemma ClosedIdIsSeen(st: Store, e: string)
    requires e in st.executions
    ensures DeliverySeen(st.executions, st.executions[e].deliveryId) <==> st.executions[e].deliveryId.Some?
  {
  }

  lemma PassCloseKeepsIds(s: State, r: string)
    requires Reached(s) && r in s.passes && s.passes[r].pc.Writing?
    ensures var t := DoPassClose(s, r);
            var x := s.passes[r].pc.x;
            && t.store.executions.Keys == s.store.executions.Keys && x.id in s.store.executions
            && t.store.executions[x.id].deliveryId == s.store.executions[x.id].deliveryId
  {
    hide Inv, Reached, Stamp, Victim, WriteOK;
    ReachedInv(s);
    CloseKeepsTrigger(s, r);
    VictimIsRecorded(s, r);
  }

  lemma VictimIsRecorded(s: State, r: string)
    requires Inv(s) && r in s.passes && s.passes[r].pc.Writing?
    ensures s.passes[r].pc.x.id in s.store.executions
  {
    hide InstancesOK, ExecutionsOK, DeliveriesUnique;
    assert PassOK(s, r);
  }

  lemma CloseKeepsTrigger(s: State, r: string)
    requires Inv(s) && r in s.passes && s.passes[r].pc.Writing?
    ensures var pc := s.passes[r].pc; var t := DoPassClose(s, r);
            pc.inst.id == pc.x.instanceId && pc.x.instanceId in t.store.instances
            && t.store.instances[pc.x.instanceId] == Stamp(pc.inst, s.clock + 1)
            && (pc.duty.RollBack? ==> pc.inst.status.Suspended?)
  {
    hide InstancesOK, ExecutionsOK, DeliveriesUnique, OwnerOK, OnChart, AgreeOutside, Wakeable;
    assert PassOK(s, r);
    VictimRuns(s, s.passes[r].pc.x);
  }

  // ---------------------------------------------------------------- rejection

  /**
   * When a resume is rejected on its first step, the release writes back the row that was claimed, with every field
   * but the version and the update time as it was: the rejected data is never stored.
   */
  lemma RejectionIsExactUndo(s: State, e: string)
    requires Reached(s)
    requires e in s.drivers && s.drivers[e].pc.ReleaseClosing?
    ensures var t := DoReleaseClose(s, e);
            s.drivers[e].origin.Some?
            && var o := s.drivers[e].origin.value;
               o.id in t.store.instances
               && t.store.instances[o.id] == o.(version := o.version + 2, updatedAt := s.clock + 1)
  {
    hide Inv, Reached, InstanceOK, OwnerOK, RunningOK, HookOK, OnChart, AgreeOutside, Wakeable, CloserOK, ParkedAt, TerminalAt, CloseRow;
    ReachedInv(s);
    BusyOwns(s, e);
    var i := s.drivers[e].inst.id;
    RowAndOwner(s, i);
    ReleasedCopy(s, i, s.drivers[e], s.store.instances[i]);
  }

  /**
   * A rejected instance can be signalled again, by the same signal, if and only if the execution and delivery ids are
   * new; so retrying under the rejected delivery's own id is refused.
   */
  lemma RetryAfterRejection(s: State, e: string, f: string, delivery: Option<string>, now: nat)
    requires Reached(s)
    requires e in s.drivers && s.drivers[e].pc.ReleaseClosing? && f !in s.store.executions
    ensures e in s.store.executions && s.drivers[e].resume.Some?
    ensures var t := DoReleaseClose(s, e);
            var i, signal := s.drivers[e].inst.id, s.drivers[e].resume.value.signal;
            var own := s.store.executions[e].deliveryId;
            var x := NewExecution(f, i, OnSignal(signal), delivery);
            && (ClaimIn(t.store, i, signal, x, now).Admitted? <==> !DeliverySeen(t.store.executions, delivery))
            && (DeliverySeen(t.store.executions, own) <==> own.Some?)
            && (own.Some? && delivery == own ==> ClaimIn(t.store, i, signal, x, now) == Refused(DuplicateDelivery))
  {
    hide Inv, Reached, DoReleaseClose, ClaimIn, DeliverySeen;
    ReachedInv(s);
    ReleasedWaits(s, e);
    var t := DoReleaseClose(s, e);
    ClosedIdIsSeen(t.store, e);
    RetryVerdict(t.store, s.drivers[e].inst.id, s.drivers[e].resume.value.signal,
                 NewExecution(f, s.drivers[e].inst.id, OnSignal(s.drivers[e].resume.value.signal), delivery), now);
  }

  lemma ReleasedWaits(s: State, e: string)
    requires Inv(s) && e in s.drivers && s.drivers[e].pc.ReleaseClosing?
    ensures e in s.store.executions && s.drivers[e].resume.Some?
    ensures var t := DoReleaseClose(s, e);
            var i := s.drivers[e].inst.id;
            && t.store.executions.Keys == s.store.executions.Keys
            && t.store.executions[e].deliveryId == s.store.executions[e].deliveryId
            && i in t.store.instances && t.store.instances[i].status.Suspended?
            && s.drivers[e].resume.value.signal in t.store.instances[i].wakeOn
  {
    hide Inv, InstanceOK, OwnerOK, RunningOK, HookOK, OnChart, AgreeOutside, Wakeable, CloserOK, ParkedAt, TerminalAt;
    BusyOwns(s, e);
    var i := s.drivers[e].inst.id;
    RowAndOwner(s, i);
    ReleasedCopy(s, i, s.drivers[e], s.store.instances[i]);
    ReleasedSignal(s, i, s.drivers[e], s.store.instances[i]);
  }

  lemma ReleasedSignal(s: State, i: string, d: Driver, r: InstanceRecord)
    requires i in s.born && OwnerOK(s, i, d, r) && d.pc.ReleaseClosing?
    ensures d.resume.Some? && d.origin.Some? && d.resume.value.signal in d.origin.value.wakeOn
  {
    hide TrackOK, AgreeOutside, Wakeable, OnChart;
  }

  lemma ReleasedCopy(s: State, i: string, d: Driver, r: InstanceRecord)
    requires i in s.born && OwnerOK(s, i, d, r) && d.pc.ReleaseClosing?
    ensures d.origin.Some? && d.origin.value.status.Suspended? && SamePin(d.origin.value, r)
    ensures JustClaimed(d.origin.value, r) && d.pc.reloaded == r.(status := Suspended)
  {
    hide TrackOK, AgreeOutside, Wakeable, OnChart;
  }

  /**
   * An invalid-input error reaches the release path in two ways, told apart by whether it came on the first step.
   * If so, the claim is still held and the release goes on to undo it. If not, the instance has already failed:
   * the release changes nothing and it stays failed.
   */
  lemma ReleaseUndoesOnlyFirstStep(s: State, e: string)
    requires Reached(s)
    requires e in s.drivers && s.drivers[e].pc.Releasing?
    ensures var t := DoReleaseLoad(s, e);
            var i := s.drivers[e].inst.id;
            && i in s.store.instances && t.store == s.store
            && (s.drivers[e].first <==> s.store.instances[i].status.Running?)
            && (s.drivers[e].first <==> t.drivers[e].pc.ReleaseClosing?)
            && (!s.drivers[e].first ==> s.store.instances[i].status.Failed? && t.drivers[e].pc.Finished?)
  {
    hide Inv, LegalRun, Run;
    ReachedInv(s);
    ReleaserStands(s, e);
  }

  lemma ReleaserStands(s: State, e: string)
    requires Inv(s) && e in s.drivers && s.drivers[e].pc.Releasing?
    ensures var i := s.drivers[e].inst.id;
            i in s.store.instances
            && (if s.drivers[e].first then s.store.instances[i].status.Running? else s.store.instances[i].status.Failed?)
  {
    hide PassesOK, DeliveriesUnique, HookOK, OwnerOK, OnChart, AgreeOutside, Wakeable, ParkRecord;
    assert ExecutionOK(s, e);
    var i := s.store.executions[e].instanceId;
    RowAndOwner(s, i);
    if s.store.executions[e].outcome.None? { ReleaserIsFirst(s, i, s.drivers[e], s.store.instances[i]); }
  }

  lemma ReleaserIsFirst(s: State, i: string, d: Driver, r: InstanceRecord)
    requires i in s.born && OwnerOK(s, i, d, r) && d.pc.Releasing?
    ensures d.first
  {
    hide OriginOK, TrackOK;
  }

  // ---------------------------------------------------------------- walks

  /**
   * Every stored instance, and every park its executions recorded, stands at a state of the pinned chart that a walk
   * from the initial state reaches; so no execution ever fails with "state not found".
   */
  lemma WalksStayOnChart(s: State, e: string)
    requires Reached(s)
    requires e in s.store.executions
    ensures var st := s.store;
            var x := st.executions[e];
            && x.instanceId in st.instances && OnChart(st.instances[x.instanceId])
            && (x.outcome == Some(OutcomeSuspended) ==> ParkRecord(st.instances[x.instanceId].chartDef, x))
            && x.error != Some(StateNotFound)
  {
    hide PassesOK, DeliveriesUnique, OnChart, ParkRecord, RunningOK, HookOK, RetiredOK;
    ReachedInv(s);
    assert ExecutionOK(s, e);
    RowAndOwner(s, s.store.executions[e].instanceId);
  }

  /** Whatever a driver is about to look up is defined in its chart. */
  lemma StateAlwaysFound(s: State, e: string, reply: Reply)
    requires Reached(s)
    requires e in s.drivers && s.drivers[e].pc.Deciding?
    ensures var d := s.drivers[e];
            Lookup(d.inst.chartDef, d.inst.current).Some? && Decide(d, reply).pc != Closing(OutcomeFailed, Some(StateNotFound))
  {
    hide InstancesOK, ExecutionsOK, PassesOK, DeliveriesUnique, HookOK, AgreeOutside, Reach, StateOK, DistinctNames, OriginOK;
    ReachedInv(s);
    BusyOwns(s, e);
    LookupOK(s.drivers[e].inst.chartDef, s.drivers[e].inst.current);
  }
}
