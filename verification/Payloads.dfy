/** Which payload keys a run, and a drive, can touch; what an executor is shown, and where its output ends up. */
module Payloads {
  import opened Prelude
  import opened Charts
  import opened Stores
  import opened Protocol
  import opened Invariant
  import opened Preservation
  import opened Steps
  import opened Guarantees
  import opened Writes
  import opened Checkpoints
  import opened Drives

  lemma BirthsStay(s: State, a: Action, i: string)
    requires Inv(s) && i in s.born
    ensures i in Next(s, a).born && Next(s, a).born[i] == s.born[i]
  {
    hide Inv, Next;
    HasBirth(s, i);
    if a.Start? { StartBirth(s, a.id, a.chart, a.payload, a.e, i); } else { OnlyStartBears(s, a); }
  }

  lemma StartBirth(s: State, id: string, chart: ChartDef, payload: Payload, e: string, i: string)
    requires i in s.store.instances && i in s.born
    ensures var t := Next(s, Start(id, chart, payload, e)); i in t.born && t.born[i] == s.born[i]
  {
    hide DeliverySeen;
  }

  lemma PassesBearNone(s: State, r: string)
    ensures DoPassClose(s, r).born == s.born && DoPassHook(s, r).born == s.born && DoPassDie(s, r).born == s.born
  {
    hide CloseIn, Disown, CrashCause;
  }

  lemma OnlyStartBears(s: State, a: Action)
    requires !a.Start?
    ensures Next(s, a).born == s.born
  {
    hide Decide, ClaimIn, SaveIn, CloseIn, DoScan, DoPassLoad, DoPassSearch, DoPassClose, DoPassHook, DoPassDie;
    match a
    case Scan(r, before, order) => QuietFinders(s, r, before, order, "");
    case PassLoad(r) => QuietFinders(s, r, 0, [], "");
    case PassSearch(r, at) => QuietFinders(s, r, 0, [], at);
    case PassClose(r) => PassesBearNone(s, r);
    case PassHook(r) => PassesBearNone(s, r);
    case PassDie(r) => PassesBearNone(s, r);
    case _ =>
  }

  lemma {:induction false} BirthIsForever(acts: seq<Action>, n: nat, i: string)
    requires LegalRun(Initial, acts) && n <= |acts| && i in Run(Initial, acts[..n]).store.instances
    ensures i in Run(Initial, acts[..n]).born && i in Run(Initial, acts).born
    ensures Run(Initial, acts).born[i] == Run(Initial, acts[..n]).born[i]
    decreases |acts|
  {
    hide Inv, Next, Legal;
    if n == |acts| {
      assert acts[..n] == acts;
      RunKeeps(acts);
      HasBirth(Run(Initial, acts), i);
    } else {
      var before := acts[..|acts| - 1];
      assert before[..n] == acts[..n];
      BirthIsForever(before, n, i);
      RunKeeps(before);
      BirthsStay(Run(Initial, before), acts[|acts| - 1], i);
    }
  }

  /** Over every run, from the moment an instance exists, payload keys that are not state names of its chart never change. */
  lemma OnlyStateKeysChange(acts: seq<Action>, n: nat, i: string)
    requires LegalRun(Initial, acts) && n <= |acts| && i in Run(Initial, acts[..n]).store.instances
    ensures i in Run(Initial, acts).store.instances
    ensures var r := Run(Initial, acts[..n]).store.instances[i];
            AgreeOutside(Run(Initial, acts).store.instances[i].payload, r.payload, Names(r.chartDef.states))
  {
    hide Inv, Next, Legal, RunningOK, HookOK, OnChart;
    var s, t := Run(Initial, acts[..n]), Run(Initial, acts);
    FinalMeansFinal(acts, n);
    BirthIsForever(acts, n, i);
    PrefixRuns(acts, n);
    RunKeeps(acts[..n]);
    RunKeeps(acts);
    RowAndOwner(s, i);
    RowAndOwner(t, i);
  }

  /**
   * While a drive is under way, the stored payload differs from the one the drive set out with only at the states
   * the drive has been in; and so does what its next write, of any kind, stores.
   */
  lemma DriveTouchesOnlyVisited(s: State, i: string, a: Action)
    requires Reached(s) && Legal(s, a) && i in s.owner
    ensures s.owner[i] in s.drivers && i in s.born && i in s.store.instances && i in Next(s, a).store.instances
    ensures var d := s.drivers[s.owner[i]];
            AgreeOutside(s.store.instances[i].payload, Base(s, i, d), d.visited)
            && AgreeOutside(Next(s, a).store.instances[i].payload, Base(s, i, d), d.visited)
            && d.visited <= Names(s.store.instances[i].chartDef.states)
  {
    hide Inv, Next, Legal, Reached, OriginOK, AgreeOutside, Names, RowOK, HookOK, CopyOK, DeciderOK, ClosingOK, SamePin, JustClaimed;
    ReachedInv(s);
    OwnerStands(s, i);
    OwnerRow(s, i);
    RowAndOwner(s, i);
    StepEffect(s, a, i);
    NextPayload(s, a, i);
  }

  lemma OwnerRow(s: State, i: string)
    requires Inv(s) && i in s.owner
    ensures i in s.store.instances && i in s.born
  {
    hide InstancesOK, ExecutionsOK, PassesOK, DeliveriesUnique;
  }

  /** A step that rewrites a running row stores either its own payload again or the owner's working copy. */
  lemma NextPayload(s: State, a: Action, i: string)
    requires Inv(s) && i in s.owner && i in s.store.instances && i in s.born && s.owner[i] in s.drivers && RunningOK(s, i)
    requires i in Next(s, a).store.instances
    ensures AgreeOutside(Next(s, a).store.instances[i].payload, Base(s, i, s.drivers[s.owner[i]]), s.drivers[s.owner[i]].visited)
  {
    hide Inv, DoSave, DoClose, DoReleaseClose, DoPassClose, DoStart, DoSignal, DoExecute, OwnerOK, AgreeOutside, DoHook, DoReleaseLoad, DoDie,
         DoScan, DoPassLoad, DoPassSearch, DoPassHook, DoPassDie;
    OwnerTracks(s, i, s.drivers[s.owner[i]], s.store.instances[i]);
    match a
    case SaveStep(e) => LivePayload(s, e, i);
    case CloseStep(e) => LivePayload(s, e, i);
    case ReleaseClose(e) => LivePayload(s, e, i);
    case PassClose(r) => PassPayload(s, r, i);
    case Start(id, chart, payload, e) => NoAdmission(s, a, i);
    case Signal(id, signal, data, e, delivery) => NoAdmission(s, a, i);
    case _ => QuietActions(s, a);
  }

  lemma OwnerTracks(s: State, i: string, d: Driver, r: InstanceRecord)
    requires i in s.born && OwnerOK(s, i, d, r)
    ensures AgreeOutside(r.payload, Base(s, i, d), d.visited)
    ensures d.pc.Saving? || d.pc.Closing? ==> AgreeOutside(d.inst.payload, Base(s, i, d), d.visited)
    ensures d.pc.ReleaseClosing? ==> d.pc.reloaded.payload == r.payload
  {
    hide OriginOK, AgreeOutside;
  }

  lemma NoAdmission(s: State, a: Action, i: string)
    requires Inv(s) && (a.Start? || a.Signal?) && i in s.owner && i in s.store.instances
    ensures i in Next(s, a).store.instances && Next(s, a).store.instances[i] == s.store.instances[i]
  {
    hide InstancesOK, ExecutionsOK, PassesOK, DeliveriesUnique, DeliverySeen;
    OpenIsOwner(s, i);
  }

  lemma LivePayload(s: State, e: string, i: string)
    requires Inv(s) && i in s.owner && i in s.store.instances && i in s.born && s.owner[i] in s.drivers
    requires OwnerOK(s, i, s.drivers[s.owner[i]], s.store.instances[i])
    ensures forall t :: t in {DoSave(s, e), DoClose(s, e), DoReleaseClose(s, e)} && i in t.store.instances ==>
              AgreeOutside(t.store.instances[i].payload, Base(s, i, s.drivers[s.owner[i]]), s.drivers[s.owner[i]].visited)
  {
    hide InstancesOK, ExecutionsOK, PassesOK, DeliveriesUnique, OwnerOK, AgreeOutside, RowOK, RunningOK, HookOK, Stamp;
    OwnerTracks(s, i, s.drivers[s.owner[i]], s.store.instances[i]);
    if e in s.drivers && (s.drivers[e].pc.Saving? || s.drivers[e].pc.Closing? || s.drivers[e].pc.ReleaseClosing?) {
      BusyOwns(s, e);
      var j := s.drivers[e].inst.id;
      OwnerTracks(s, j, s.drivers[e], s.store.instances[j]);
      StampPayload(s.drivers[e].inst, s.clock + 1);
      if s.drivers[e].pc.ReleaseClosing? {
        ReleaseIsShut(s, e);
        StampPayload(s.drivers[e].pc.reloaded, s.clock + 1);
      }
    }
  }

  lemma StampPayload(r: InstanceRecord, now: nat)
    ensures Stamp(r, now).payload == r.payload
  {
  }

  lemma PassPayload(s: State, r: string, i: string)
    requires Inv(s) && i in s.owner && i in s.store.instances
    ensures i in DoPassClose(s, r).store.instances && DoPassClose(s, r).store.instances[i].payload == s.store.instances[i].payload
  {
    hide InstancesOK, ExecutionsOK, DeliveriesUnique, OwnerOK, RowOK, RunningOK, HookOK;
    if r in s.passes && s.passes[r].pc.Writing? {
      assert PassOK(s, r);
      VictimRuns(s, s.passes[r].pc.x);
    }
  }

  // ---------------------------------------------------------------- in and out of an executor

  /**
   * In every reachable state, what a driver about to act would show its executor. On the first step of a resume: the signal,
   * its data, and the claimed row's payload, which is still the stored one, with the data under the row's state. On every
   * other call: no signal, no data, and the stored payload.
   */
  lemma ShownPayload(s: State, e: string, st: StateConfig)
    requires Reached(s) && e in s.drivers && s.drivers[e].pc.Deciding?
    ensures var d := s.drivers[e];
            var ev := EventFor(d, st);
            && d.inst.id in s.store.instances
            && var stored := s.store.instances[d.inst.id];
            && ev.config == st.config && ev.payload == d.inst.payload
            && if d.first && d.resume.Some? then
                 && d.origin.Some? && d.origin.value.payload == stored.payload && d.origin.value.current == stored.current
                 && ev.name == d.resume.value.signal && ev.data == d.resume.value.data
                 && (ev.data == map[] ==> ev.payload == stored.payload)
                 && (ev.data != map[] ==> stored.current in ev.payload && ev.payload[stored.current] == Object(ev.data))
                 && (forall k :: k != stored.current ==> Agree(ev.payload, stored.payload, k))
               else
                 ev.name == "" && ev.data == map[] && ev.payload == stored.payload
  {
    hide InstancesOK, ExecutionsOK, PassesOK, DeliveriesUnique, Reached, TrackOK, CopyOK, OnChart, Wakeable, ParkedAt, AgreeOutside;
    ReachedInv(s);
    BusyOwns(s, e);
  }

  /** The driver's next write, whichever its decision calls for. */
  function WriteNext(s: State, e: string): State {
    if PcOf(s, e).Saving? then DoSave(s, e) else DoClose(s, e)
  }

  lemma WriteStores(s: State, e: string)
    requires PcOf(s, e).Saving? || PcOf(s, e).Closing?
    ensures var i := s.drivers[e].inst;
            i.id in WriteNext(s, e).store.instances && WriteNext(s, e).store.instances[i.id].payload == i.payload
  {
    hide Disown, CloseRow;
  }

  /** One iteration changes the copy's payload at the state's name alone, and only to the output. */
  lemma DecisionFiles(d: Driver, res: Result)
    requires Lookup(d.inst.chartDef, d.inst.current).Some? && !TerminalAt(d.inst.chartDef, d.inst.current)
    ensures var d' := Decide(d, Returns(res));
            var p, q := d.inst.payload, d'.inst.payload;
            && (d'.pc.Saving? || d'.pc.Closing?) && d'.inst.id == d.inst.id
            && if res.output == map[] || (res.suspend && res.wakeAt.None? && SignalsAt(d.inst.chartDef, d.inst.current) == [])
               then q == p
               else d.inst.current in q && q[d.inst.current] == Object(res.output) && forall k :: k != d.inst.current ==> Agree(q, p, k)
  {
    hide Resolve, Find;
    FindMeansFirst(d.inst.chartDef.states, d.inst.current);
  }

  /**
   * In every reachable state, when an executor returns, the payload the driver then stores is its working copy with the
   * output under the state's name, whether it parks, moves on or fails for want of a transition; only a park that nothing
   * could wake drops the output.
   */
  lemma OutputIsStored(s: State, e: string, res: Result)
    requires Reached(s) && e in s.drivers && s.drivers[e].pc.Deciding?
    requires !TerminalAt(s.drivers[e].inst.chartDef, s.drivers[e].inst.current)
    ensures var d := s.drivers[e];
            var t := WriteNext(DoExecute(s, e, Returns(res)), e);
            && d.inst.id in t.store.instances
            && var p, stored := d.inst.payload, t.store.instances[d.inst.id].payload;
            if res.output == map[] || (res.suspend && res.wakeAt.None? && SignalsAt(d.inst.chartDef, d.inst.current) == [])
            then stored == p
            else
              && d.inst.current in stored && stored[d.inst.current] == Object(res.output)
              && forall k :: k != d.inst.current ==> Agree(stored, p, k)
  {
    hide Reached, Decide, WriteNext, TerminalAt, Lookup, SignalsAt;
    StateAlwaysFound(s, e, Returns(res));
    DecisionFiles(s.drivers[e], res);
    WriteStores(DoExecute(s, e, Returns(res)), e);
  }
}
