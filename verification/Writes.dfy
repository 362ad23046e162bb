/** Writes are never lost, counted exactly by the version, and stop once an instance is final. */
module Writes {
  import opened Prelude
  import opened Charts
  import opened Stores
  import opened Protocol
  import opened Invariant
  import opened Preservation
  import opened Steps
  import opened Guarantees

  // ---------------------------------------------------------------- no lost update

  /** The row each pending write is about to overwrite, and the copy it will overwrite it with. */
  ghost predicate AboutToWrite(s: State, a: Action, copy: InstanceRecord) {
    match a
    case SaveStep(e) => e in s.drivers && s.drivers[e].pc.Saving? && copy == s.drivers[e].inst
    case CloseStep(e) => e in s.drivers && s.drivers[e].pc.Closing? && copy == s.drivers[e].inst
    case ReleaseClose(e) => e in s.drivers && s.drivers[e].pc.ReleaseClosing? && copy == s.drivers[e].pc.reloaded
    case PassClose(r) => r in s.passes && s.passes[r].pc.Writing? && copy == s.passes[r].pc.inst
    case _ => false
  }

  /**
   * No write checks a version, yet at every write of every legal run the stored version is the one the writer
   * holds, the stored instance is running, and the copy belongs to the same pinned chart: the blind overwrite
   * is a compare-and-swap that succeeds.
   */
  lemma NoLostUpdate(s: State, a: Action, copy: InstanceRecord)
    requires Reached(s) && AboutToWrite(s, a, copy)
    ensures copy.id in s.store.instances && s.store.instances[copy.id].version == copy.version
    ensures s.store.instances[copy.id].status.Running? && SamePin(s.store.instances[copy.id], copy)
    ensures Next(s, a).store.instances == s.store.instances[copy.id := Stamp(copy, s.clock + 1)]
  {
    hide Inv, SamePin, DoSave, DoClose, DoReleaseClose, DoPassClose;
    ReachedInv(s);
    if a.PassClose? { PassWriteIsCurrent(s, a.r); } else { LiveWriteIsCurrent(s, a.e); }
  }

  /** The copy holds the stored version of a running instance, and storing it stamps it. */
  ghost predicate Current(s: State, t: State, copy: InstanceRecord) {
    && copy.id in s.store.instances && s.store.instances[copy.id].version == copy.version
    && s.store.instances[copy.id].status.Running? && SamePin(s.store.instances[copy.id], copy)
    && t.store.instances == s.store.instances[copy.id := Stamp(copy, s.clock + 1)]
  }

  lemma LiveWriteIsCurrent(s: State, e: string)
    requires Inv(s)
    ensures e in s.drivers && s.drivers[e].pc.Saving? ==> Current(s, DoSave(s, e), s.drivers[e].inst)
    ensures e in s.drivers && s.drivers[e].pc.Closing? ==> Current(s, DoClose(s, e), s.drivers[e].inst)
    ensures e in s.drivers && s.drivers[e].pc.ReleaseClosing? ==> Current(s, DoReleaseClose(s, e), s.drivers[e].pc.reloaded)
  {
    hide InstancesOK, ExecutionsOK, PassesOK, DeliveriesUnique, OnChart, AgreeOutside, RestOK, NoticeOK, SameNotices, OriginOK, TrackOK,
         HookOK, Reach;
    if e in s.drivers && (s.drivers[e].pc.Saving? || s.drivers[e].pc.Closing? || s.drivers[e].pc.ReleaseClosing?) {
      BusyOwns(s, e);
    }
  }

  lemma PassWriteIsCurrent(s: State, r: string)
    requires Inv(s)
    ensures r in s.passes && s.passes[r].pc.Writing? ==> Current(s, DoPassClose(s, r), s.passes[r].pc.inst)
  {
    hide InstancesOK, ExecutionsOK, DeliveriesUnique, OnChart, AgreeOutside, RestOK, NoticeOK, SameNotices, OwnerOK, HookOK;
    if r in s.passes && s.passes[r].pc.Writing? {
      assert PassOK(s, r);
      VictimRuns(s, s.passes[r].pc.x);
    }
  }

  /** The row of instance `i` differs after the step. */
  ghost predicate Changes(s: State, a: Action, i: string) {
    !Agree(Next(s, a).store.instances, s.store.instances, i)
  }

  ghost function ChangeCount(acts: seq<Action>, i: string): nat
    decreases |acts|
  {
    if acts == [] then 0
    else ChangeCount(acts[..|acts| - 1], i) + Count(Changes(Run(Initial, acts[..|acts| - 1]), acts[|acts| - 1], i))
  }

  /** The version of an instance is the number of steps of the run that changed it. */
  lemma {:induction false} VersionCountsWrites(acts: seq<Action>, i: string)
    requires LegalRun(Initial, acts)
    ensures var st := Run(Initial, acts).store;
            ChangeCount(acts, i) == if i in st.instances then st.instances[i].version else 0
    decreases |acts|
  {
    hide Inv, Next, Legal, SamePin, JustClaimed, WellFormed;
    if acts == [] {
    } else {
      var before := acts[..|acts| - 1];
      VersionCountsWrites(before, i);
      RunKeeps(before);
      StepEffect(Run(Initial, before), acts[|acts| - 1], i);
    }
  }

  // ---------------------------------------------------------------- final means final

  /** What a run never takes back: a final row, a closed execution record, and the chart a row is pinned to. */
  ghost predicate Keeps(s: State, t: State) {
    && (forall i :: i in s.store.instances ==>
          i in t.store.instances && t.store.instances[i].chartDef == s.store.instances[i].chartDef
          && t.store.instances[i].createdAt == s.store.instances[i].createdAt
          && (Final(s.store.instances[i].status) ==> t.store.instances[i] == s.store.instances[i]))
    && (forall e :: e in s.store.executions ==>
          e in t.store.executions
          && t.store.executions[e].instanceId == s.store.executions[e].instanceId
          && t.store.executions[e].deliveryId == s.store.executions[e].deliveryId
          && t.store.executions[e].startedAt == s.store.executions[e].startedAt
          && (s.store.executions[e].outcome.Some? ==> t.store.executions[e] == s.store.executions[e]))
  }

  /** What a step may do to an execution record: nothing if it is closed, and never change what it is about. */
  ghost predicate ExecutionStep(s: State, t: State, e: string) {
    e in s.store.executions ==>
      && e in t.store.executions
      && t.store.executions[e].instanceId == s.store.executions[e].instanceId
      && t.store.executions[e].deliveryId == s.store.executions[e].deliveryId
      && t.store.executions[e].startedAt == s.store.executions[e].startedAt
      && (s.store.executions[e].outcome.Some? ==> t.store.executions[e] == s.store.executions[e])
  }

  lemma LiveExecutionStep(s: State, f: string, e: string)
    requires Inv(s)
    ensures ExecutionStep(s, DoSave(s, f), e) && ExecutionStep(s, DoClose(s, f), e) && ExecutionStep(s, DoReleaseClose(s, f), e)
  {
    hide InstancesOK, ExecutionsOK, PassesOK, DeliveriesUnique, OwnerOK, RowOK, RunningOK, HookOK, Stamp;
    if f in s.drivers && (s.drivers[f].pc.Saving? || s.drivers[f].pc.Closing? || s.drivers[f].pc.ReleaseClosing?) {
      BusyOwns(s, f);
    }
  }

  lemma PassExecutionStep(s: State, r: string, e: string)
    requires Inv(s)
    ensures ExecutionStep(s, DoPassClose(s, r), e)
  {
    hide InstancesOK, ExecutionsOK, DeliveriesUnique, OwnerOK, RowOK, RunningOK, HookOK, Stamp;
    if r in s.passes && s.passes[r].pc.Writing? { assert PassOK(s, r); }
  }

  lemma StepKeeps(s: State, a: Action)
    requires Inv(s) && Legal(s, a)
    ensures Keeps(s, Next(s, a))
  {
    hide Inv, Next, Legal, JustClaimed;
    var t := Next(s, a);
    forall i | i in s.store.instances
      ensures i in t.store.instances && t.store.instances[i].chartDef == s.store.instances[i].chartDef
              && t.store.instances[i].createdAt == s.store.instances[i].createdAt
              && (Final(s.store.instances[i].status) ==> t.store.instances[i] == s.store.instances[i])
    {
      StepEffect(s, a, i);
    }
    forall e | e in s.store.executions ensures ExecutionStep(s, t, e) { AnyExecutionStep(s, a, e); }
  }

  lemma AnyExecutionStep(s: State, a: Action, e: string)
    requires Inv(s)
    ensures ExecutionStep(s, Next(s, a), e)
  {
    hide Inv, DoSave, DoClose, DoReleaseClose, DoPassClose, DeliverySeen, DoExecute, DoHook, DoReleaseLoad, DoDie, DoScan, DoPassLoad,
         DoPassSearch, DoPassHook, DoPassDie;
    match a
    case Start(_, _, _, _) =>
    case Signal(_, _, _, _, _) =>
    case SaveStep(f) => LiveExecutionStep(s, f, e);
    case CloseStep(f) => LiveExecutionStep(s, f, e);
    case ReleaseClose(f) => LiveExecutionStep(s, f, e);
    case PassClose(r) => PassExecutionStep(s, r, e);
    case _ => QuietActions(s, a);
  }

  /** Done and failed instances, closed execution records and pinned charts never change again, however the run goes on. */
  lemma {:induction false} FinalMeansFinal(acts: seq<Action>, n: nat)
    requires LegalRun(Initial, acts) && n <= |acts|
    ensures Keeps(Run(Initial, acts[..n]), Run(Initial, acts))
    decreases |acts|
  {
    hide Inv, Next, Legal;
    if n == |acts| {
      assert acts[..n] == acts;
    } else {
      var before := acts[..|acts| - 1];
      FinalMeansFinal(before, n);
      assert before[..n] == acts[..n];
      RunKeeps(before);
      StepKeeps(Run(Initial, before), acts[|acts| - 1]);
    }
  }

  /** The same between any reachable state and any it leads to. */
  lemma LeadsPreserves(s: State, t: State)
    requires Reached(s) && Leads(s, t)
    ensures Keeps(s, t)
  {
    hide Run, LegalRun, Keeps, Reached;
    ReachedIsRun(s);
    var acts :| LegalRun(Initial, acts) && s == Run(Initial, acts);
    var more :| LegalRun(s, more) && t == Run(s, more);
    RunsJoin(Initial, acts, more);
    assert (acts + more)[..|acts|] == acts;
    FinalMeansFinal(acts + more, |acts|);
  }

  // ---------------------------------------------------------------- at-most-once delivery

  /** The step admits a drive under delivery id `delivery`. */
  predicate Delivers(s: State, a: Action, delivery: string) {
    a.Signal? && a.delivery == Some(delivery) && Drives(s, a, a.id)
  }

  ghost function DeliveryCount(acts: seq<Action>, delivery: string): nat
    decreases |acts|
  {
    if acts == [] then 0
    else DeliveryCount(acts[..|acts| - 1], delivery) + Count(Delivers(Run(Initial, acts[..|acts| - 1]), acts[|acts| - 1], delivery))
  }

  /** A delivery id starts at most one drive over a whole run: one exactly if some execution carries it. */
  lemma {:induction false} AtMostOnceDelivery(acts: seq<Action>, delivery: string)
    requires LegalRun(Initial, acts)
    ensures DeliveryCount(acts, delivery) == Count(DeliverySeen(Run(Initial, acts).store.executions, Some(delivery)))
    ensures DeliveriesUnique(Run(Initial, acts).store)
    decreases |acts|
  {
    RunKeeps(acts);
    hide Inv, Next, Legal, Delivers;
    if acts == [] {
    } else {
      var before := acts[..|acts| - 1];
      AtMostOnceDelivery(before, delivery);
      RunKeeps(before);
      DeliveryStep(Run(Initial, before), acts[|acts| - 1], delivery);
    }
  }

  lemma DeliveryStep(s: State, a: Action, delivery: string)
    requires Inv(s)
    ensures DeliverySeen(Next(s, a).store.executions, Some(delivery))
            <==> DeliverySeen(s.store.executions, Some(delivery)) || Delivers(s, a, delivery)
    ensures Delivers(s, a, delivery) ==> !DeliverySeen(s.store.executions, Some(delivery))
  {
    hide Inv, DoExecute, DoSave, DoClose, DoReleaseClose, DoPassClose;
    var t := Next(s, a);
    forall e | e in s.store.executions ensures ExecutionStep(s, t, e) { AnyExecutionStep(s, a, e); }
    if a.Signal? && Drives(s, a, a.id) {
      assert a.e in t.store.executions && t.store.executions[a.e].deliveryId == a.delivery;
    } else if !a.Start? {
      NoNewExecutions(s, a);
    }
  }

  lemma NoNewExecutions(s: State, a: Action)
    requires !a.Start? && (a.Signal? ==> !Drives(s, a, a.id))
    ensures Next(s, a).store.executions.Keys == s.store.executions.Keys
  {
    hide DoSave, DoClose, DoReleaseClose, DoPassClose, DeliverySeen, DoExecute, DoHook, DoReleaseLoad, DoDie, DoScan, DoPassLoad, DoPassSearch,
         DoPassHook, DoPassDie;
    match a
    case Signal(_, _, _, _, _) =>
    case SaveStep(e) => SameExecutions(s, e);
    case CloseStep(e) => SameExecutions(s, e);
    case ReleaseClose(e) => SameExecutions(s, e);
    case PassClose(r) => SameExecutions(s, r);
    case _ => QuietActions(s, a);
  }

  /** Saving and closing rewrite execution records; they never add one. */
  lemma SameExecutions(s: State, e: string)
    ensures DoSave(s, e).store.executions.Keys == s.store.executions.Keys
    ensures DoClose(s, e).store.executions.Keys == s.store.executions.Keys
    ensures DoReleaseClose(s, e).store.executions.Keys == s.store.executions.Keys
    ensures DoPassClose(s, e).store.executions.Keys == s.store.executions.Keys
  {
    hide SaveIn, CloseIn, Disown;
    forall i, x, now ensures SaveIn(s.store, i, x, now).executions.Keys == s.store.executions.Keys {
      RewritesKeepKeys(s.store, i, x, OutcomeDone, None, now);
    }
    forall i, x, o, c, now ensures CloseIn(s.store, i, x, o, c, now).executions.Keys == s.store.executions.Keys {
      RewritesKeepKeys(s.store, i, x, o, c, now);
    }
  }

  lemma RewritesKeepKeys(st: Store, i: InstanceRecord, e: string, outcome: Outcome, cause: Option<Cause>, now: nat)
    ensures SaveIn(st, i, e, now).executions.Keys == st.executions.Keys
    ensures CloseIn(st, i, e, outcome, cause, now).executions.Keys == st.executions.Keys
  {
    hide Stamp, CloseRow;
  }
}
