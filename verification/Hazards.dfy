/**
 * What goes wrong when the two unchecked assumptions about recovery fail, and exactly when a write is safe: when the
 * execution it is made under is still open. Nothing in the store or the engine checks that, or enforces either assumption.
 */
module Hazards {
  import opened Prelude
  import opened Charts
  import opened Stores
  import opened Protocol
  import opened Invariant
  import opened Guarantees
  import opened Notices

  /** Ownership as the tables alone show it: running if and only if exactly one execution is open, otherwise none. */
  ghost predicate OwnershipShown(st: Store, i: string) {
    i in st.instances && |OpenOf(st, i)| == (if st.instances[i].status.Running? then 1 else 0)
  }

  /**
   * A closing write brings the instance to rest without checking anything. It keeps ownership intact if and only if
   * no execution of that instance other than the one being closed is open, which a caller could look up first.
   */
  lemma CloseSafeIffAlone(st: Store, row: InstanceRecord, e: string, outcome: Outcome, cause: Option<Cause>, now: nat)
    requires e in st.executions && st.executions[e].instanceId == row.id && !row.status.Running?
    ensures OwnershipShown(CloseIn(st, row, e, outcome, cause, now), row.id) <==> OpenOf(st, row.id) <= {e}
  {
    OpenAfterClose(st, row, e, outcome, cause, now);
    var rest := OpenOf(st, row.id) - {e};
    if rest != {} {
      var f :| f in rest;
      assert f in OpenOf(st, row.id) && f != e;
    }
  }

  lemma OpenAfterClose(st: Store, row: InstanceRecord, e: string, outcome: Outcome, cause: Option<Cause>, now: nat)
    requires e in st.executions && st.executions[e].instanceId == row.id
    ensures OpenOf(CloseIn(st, row, e, outcome, cause, now), row.id) == OpenOf(st, row.id) - {e}
  {
    hide Stamp;
  }

  /**
   * Where ownership is shown, a closing write overwrites a running row and leaves ownership shown if and only if the
   * execution it closes is still open. So the missing guard is one lookup of that execution, under the store's lock.
   */
  lemma CloseSafeIffOpen(st: Store, row: InstanceRecord, e: string, outcome: Outcome, cause: Option<Cause>, now: nat)
    requires e in st.executions && st.executions[e].instanceId == row.id && !row.status.Running? && OwnershipShown(st, row.id)
    ensures st.instances[row.id].status.Running? && OwnershipShown(CloseIn(st, row, e, outcome, cause, now), row.id)
            <==> st.executions[e].outcome.None?
  {
    hide OwnershipShown;
    CloseSafeIffAlone(st, row, e, outcome, cause, now);
    OpenIsOnly(st, row.id, e);
  }

  lemma OpenIsOnly(st: Store, i: string, e: string)
    requires OwnershipShown(st, i) && e in st.executions && st.executions[e].instanceId == i
    ensures st.instances[i].status.Running? && OpenOf(st, i) <= {e} <==> st.executions[e].outcome.None?
  {
    var open := OpenOf(st, i);
    if st.executions[e].outcome.None? {
      assert e in open;
      assert |open - {e}| == 0;
      assert open == {e};
    } else {
      assert e !in open;
      if open <= {e} { assert open == {}; }
    }
  }

  /**
   * The same lookup decides a save. Where ownership is shown, the save leaves the instance running under its own
   * execution and no other if and only if that execution is still open. The count of open executions alone would not do:
   * it stays right whenever the row was running, also under another drive.
   */
  lemma SaveSafeIffOpen(st: Store, row: InstanceRecord, e: string, now: nat)
    requires e in st.executions && st.executions[e].instanceId == row.id && row.status.Running? && OwnershipShown(st, row.id)
    ensures OpenOf(SaveIn(st, row, e, now), row.id) == {e} <==> st.executions[e].outcome.None?
    ensures OwnershipShown(SaveIn(st, row, e, now), row.id) <==> st.instances[row.id].status.Running?
  {
    var open := OpenOf(st, row.id);
    assert OpenOf(SaveIn(st, row, e, now), row.id) == open by { hide Stamp; }
    if st.executions[e].outcome.None? {
      OpenIsOnly(st, row.id, e);
      assert e in open;
    }
  }

  /** The row a driver's close, or a pass's, is about to store. */
  ghost predicate Shuts(inst: InstanceRecord, i: string, final: bool) {
    inst.id == i && (if final then Final(inst.status) else inst.status.Suspended?)
  }

  /**
   * The same for the completion hook, at a pass's close. The calls still come to one per final instance if and only if
   * the row overwritten was not final already; and that, ownership and the row running all hold together if and only if
   * the crashed execution is still open.
   */
  lemma PassCloseSafeIffOpen(s: State, r: string)
    requires r in s.passes && s.passes[r].pc.Writing? && !s.passes[r].pc.duty.JustClose?
    requires var pc := s.passes[r].pc;
             && Shuts(pc.inst, pc.x.instanceId, pc.duty.MarkFailed?)
             && pc.x.id in s.store.executions && s.store.executions[pc.x.id].instanceId == pc.x.instanceId
             && OwnershipShown(s.store, pc.x.instanceId) && NoticesShown(s, pc.x.instanceId)
    ensures var i := s.passes[r].pc.x.instanceId;
            var t := DoPassClose(s, r);
            && (NoticesShown(t, i) <==> !Final(s.store.instances[i].status))
            && (s.store.instances[i].status.Running? && OwnershipShown(t.store, i) && NoticesShown(t, i)
                <==> s.store.executions[s.passes[r].pc.x.id].outcome.None?)
  {
    hide DueDrivers, DuePasses, CloseIn, DoPassClose, OpenOf;
    var pc := s.passes[r].pc;
    CloseSafeIffOpen(s.store, pc.inst, pc.x.id, OutcomeCrashed, Some(CrashCause(pc.duty)), s.clock + 1);
    PassCloseOwes(s, r, pc.x.instanceId);
    PassCloseStores(s, r);
  }

  lemma PassCloseOwes(s: State, r: string, i: string)
    requires r in s.passes && s.passes[r].pc.Writing? && s.passes[r].pc.x.instanceId == i
    ensures var t := DoPassClose(s, r);
            && DueDrivers(t, i) == DueDrivers(s, i) && t.hooks == s.hooks && t.lost == s.lost
            && |DuePasses(t, i)| == |DuePasses(s, i)| + (if s.passes[r].pc.duty.MarkFailed? then 1 else 0)
  {
    hide Disown, CloseIn;
    var t := DoPassClose(s, r);
    assert r !in DuePasses(s, i);
    assert DuePasses(t, i) == if s.passes[r].pc.duty.MarkFailed? then DuePasses(s, i) + {r} else DuePasses(s, i);
  }

  lemma PassCloseStores(s: State, r: string)
    requires r in s.passes && s.passes[r].pc.Writing?
    ensures var pc := s.passes[r].pc;
            var t := DoPassClose(s, r);
            && t.store == CloseIn(s.store, pc.inst, pc.x.id, OutcomeCrashed, Some(CrashCause(pc.duty)), s.clock + 1)
            && pc.inst.id in t.store.instances && t.store.instances[pc.inst.id].status == pc.inst.status
  {
    hide CloseRow, Disown;
  }

  /** And at a driver's close. */
  lemma DriverCloseSafeIffOpen(s: State, e: string)
    requires e in s.drivers && s.drivers[e].pc.Closing?
    requires var d := s.drivers[e];
             && Shuts(d.inst, d.inst.id, !d.pc.outcome.OutcomeSuspended?)
             && e in s.store.executions && s.store.executions[e].instanceId == d.inst.id
             && OwnershipShown(s.store, d.inst.id) && NoticesShown(s, d.inst.id)
    ensures var i := s.drivers[e].inst.id;
            var t := DoClose(s, e);
            && (NoticesShown(t, i) <==> !Final(s.store.instances[i].status))
            && (s.store.instances[i].status.Running? && OwnershipShown(t.store, i) && NoticesShown(t, i)
                <==> s.store.executions[e].outcome.None?)
  {
    hide DueDrivers, DuePasses, CloseIn, DoClose, OpenOf;
    var d := s.drivers[e];
    CloseSafeIffOpen(s.store, d.inst, e, d.pc.outcome, d.pc.cause, s.clock + 1);
    CloseOwes(s, e, d.inst.id);
    CloseStores(s, e);
  }

  lemma CloseOwes(s: State, e: string, i: string)
    requires e in s.drivers && s.drivers[e].pc.Closing? && s.drivers[e].inst.id == i
    ensures var t := DoClose(s, e);
            && DuePasses(t, i) == DuePasses(s, i) && t.hooks == s.hooks && t.lost == s.lost
            && |DueDrivers(t, i)| == |DueDrivers(s, i)| + (if s.drivers[e].pc.outcome.OutcomeSuspended? then 0 else 1)
  {
    hide Disown, CloseIn;
    var t := DoClose(s, e);
    assert e !in DueDrivers(s, i);
    assert DueDrivers(t, i) == if s.drivers[e].pc.outcome.OutcomeSuspended? then DueDrivers(s, i) else DueDrivers(s, i) + {e};
  }

  lemma CloseStores(s: State, e: string)
    requires e in s.drivers && s.drivers[e].pc.Closing?
    ensures var d := s.drivers[e];
            var t := DoClose(s, e);
            && t.store == CloseIn(s.store, d.inst, e, d.pc.outcome, d.pc.cause, s.clock + 1)
            && d.inst.id in t.store.instances && t.store.instances[d.inst.id].status == d.inst.status
  {
    hide CloseRow, Disown;
  }

  // ---------------------------------------------------------------- the runs below, state by state

  function WaitState(): StateConfig {
    StateConfig("wait", "park", map[], ["go"], [Transition("go", "done", "")], false)
  }

  function DoneState(): StateConfig {
    StateConfig("done", "", map[], [], [], true)
  }

  function ParkChart(): ChartDef {
    ChartDef("park", "1", "wait", [WaitState(), DoneState()])
  }

  lemma ParkChartFacts()
    ensures Lookup(ParkChart(), "wait") == Some(WaitState())
    ensures WellFormed(ParkChart())
  {
    var c := ParkChart();
    assert c.states[0].name == "wait" && c.states[1].name == "done";
    assert "wait" in Names(c.states) && "done" in Names(c.states) by {
      assert c.states[0].name in Names(c.states);
      assert c.states[1].name in Names(c.states);
    }
    assert Triggers(WaitState(), "go") by { assert WaitState().transitions[0].on == "go"; }
  }

  function Row(): InstanceRecord {
    FreshRow("i", ParkChart(), map[]).(createdAt := 1, updatedAt := 1, version := 1)
  }

  function Exec(): Execution {
    NewExecution("e", "i", OnStart, None).(startedAt := 1, heartbeatAt := 1)
  }

  /** One instance, one open Start drive in the given position, some time after its start. */
  function Started(pc: Pc, clock: nat): State {
    Initial.(store := Store(map["i" := Row()], map["e" := Exec()]), clock := clock,
             drivers := map["e" := Driver(Row(), None, true, pc, None, {ParkChart().initial})],
             owner := map["i" := "e"], born := map["i" := map[]])
  }

  /** The instance starts; then nothing is heard of it for a while. */
  const QUIET: seq<Action> := [Start("i", ParkChart(), map[], "e"), Tick(9)]

  /** The same, but because its driver died; and a pass has the dead drive in hand, about to fail the instance. */
  const DEAD: seq<Action> :=
    [Start("i", ParkChart(), map[], "e"), Tick(9), Die("e"), Scan("r1", 9, ["e"]), PassLoad("r1"), PassSearch("r1", "")]

  /** A legal run goes on with a legal action. */
  lemma RunOneMore(acts: seq<Action>, a: Action)
    requires LegalRun(Initial, acts) && Legal(Run(Initial, acts), a)
    ensures LegalRun(Initial, acts + [a]) && Run(Initial, acts + [a]) == Next(Run(Initial, acts), a)
  {
    hide Next, Legal;
    assert (acts + [a])[..|acts|] == acts;
    assert Run(Initial, acts + [a]) == AfterLast(Initial, acts + [a]);
  }

  lemma QuietRun()
    ensures LegalRun(Initial, QUIET) && Run(Initial, QUIET) == Started(Deciding, 10)
  {
    hide ParkChart, WellFormed, Started, Next;
    ParkChartFacts();
    Begin();
    RunOneMore([], QUIET[0]);
    RunOneMore([QUIET[0]], QUIET[1]);
    assert [] + [QUIET[0]] == [QUIET[0]] && [QUIET[0]] + [QUIET[1]] == QUIET;
  }

  lemma Begin()
    ensures Next(Initial, Start("i", ParkChart(), map[], "e")) == Started(Deciding, 1)
    ensures Next(Started(Deciding, 1), Tick(9)) == Started(Deciding, 10)
    ensures Next(Started(Deciding, 10), Die("e")) == Started(Crashed, 10)
  {
    hide ParkChart;
    assert !DeliverySeen(Initial.store.executions, None);
    var t := Next(Initial, Start("i", ParkChart(), map[], "e"));
    assert t.store.instances == map["i" := Row()] && t.store.executions == map["e" := Exec()];
    assert t.drivers == Started(Deciding, 1).drivers && t.owner == map["i" := "e"] && t.born == map["i" := map[]];
    assert Next(Started(Deciding, 10), Die("e")).drivers == Started(Crashed, 10).drivers;
  }

  /** A pass with the crashed Start drive in hand, about to mark the instance failed. */
  function Judged(): Pass {
    Pass([], Writing(Exec(), Row().(status := Failed), MarkFailed), 0)
  }

  /** A pass that scans now finds the Start drive's execution; with no park on record it sets out to fail the instance. */
  lemma PassScans(s: State, r: string)
    requires s.store == Started(Deciding, 10).store && r !in s.passes
    ensures DoScan(s, r, 9, ["e"]) == s.(passes := s.passes[r := Pass([Exec()], Fetching, 0)])
  {
    hide ParkChart;
    assert Enumerates(["e"], Expired(s.store, 9));
    assert DoScan(s, r, 9, ["e"]).passes[r].queue == [Exec()];
  }

  lemma PassLoads(s: State, r: string)
    requires s.store == Started(Deciding, 10).store && r in s.passes && s.passes[r] == Pass([Exec()], Fetching, 0)
    ensures DoPassLoad(s, r) == s.(passes := s.passes[r := Pass([], Searching(Exec(), Row()), 0)])
  {
    hide ParkChart;
    assert [Exec()][1..] == [];
  }

  lemma PassSearches(s: State, r: string)
    requires s.store == Started(Deciding, 10).store && r in s.passes && s.passes[r] == Pass([], Searching(Exec(), Row()), 0)
    ensures DoPassSearch(s, r, "") == s.(passes := s.passes[r := Judged()])
  {
    hide ParkChart;
    assert NeverParked(s.store, "i");
  }

  lemma PassJudges(s: State, r: string)
    requires s.store == Started(Deciding, 10).store && r !in s.passes
    ensures DoPassSearch(DoPassLoad(DoScan(s, r, 9, ["e"]), r), r, "") == s.(passes := s.passes[r := Judged()])
  {
    hide DoScan, DoPassLoad, DoPassSearch, Started;
    PassScans(s, r);
    var s1 := s.(passes := s.passes[r := Pass([Exec()], Fetching, 0)]);
    PassLoads(s1, r);
    var s2 := s1.(passes := s1.passes[r := Pass([], Searching(Exec(), Row()), 0)]);
    PassSearches(s2, r);
    assert s2.passes[r := Judged()] == s.passes[r := Judged()];
  }

  /** The pass closes the execution and announces the failure, blind to what the stored row says by now. */
  lemma PassFails(s: State, r: string)
    requires r in s.passes && s.passes[r] == Judged() && "i" in s.store.instances && "e" in s.store.executions
    ensures var t := DoPassHook(DoPassClose(s, r), r);
            && t.store.instances == s.store.instances["i" := Stamp(Row().(status := Failed), s.clock + 1)]
            && t.store.executions.Keys == s.store.executions.Keys
            && t.hooks == s.hooks + multiset{"i"}
            && t.passes == s.passes[r := Pass([], Fetching, 1)] && t.drivers == s.drivers && t.clock == s.clock + 1
  {
    hide ParkChart, CloseRow;
    var u := DoPassClose(s, r);
    assert u.passes == s.passes[r := Pass([], Announcing(Exec()), 0)];
    assert DoPassHook(u, r).passes == s.passes[r := Pass([], Fetching, 1)];
  }

  // ---------------------------------------------------------------- the two hazards

  /** The steps of a pass up to its closing write. */
  function Judging(s: State, r: string): State {
    DoPassSearch(DoPassLoad(DoScan(s, r, 9, ["e"]), r), r, "")
  }

  /**
   * An expired lease whose driver is alive. After a legal run, at a threshold in the past, recovery fails the instance
   * under the live driver, whose next two steps overwrite the final status with a park. At that write ownership is
   * shown, and the execution being closed is closed already.
   */
  lemma HastyRecoveryUndoesFinal()
    ensures LegalRun(Initial, QUIET) && 9 <= Run(Initial, QUIET).clock
    ensures var s := Run(Initial, QUIET);
            var u := DoPassClose(Judging(s, "r"), "r");
            && NoPassActive(s) && !LeaseMeansDead(s, 9)
            && OwnershipShown(u.store, "i") && u.store.instances["i"].status.Failed?
            && "e" in u.store.executions && u.store.executions["e"].outcome.Some?
            && var t := DoClose(DoExecute(u, "e", Returns(Result("", map[], true, None))), "e");
               "i" in t.store.instances && t.store.instances["i"].status.Suspended?
  {
    QuietRun();
    var s := Started(Deciding, 10);
    assert "e" in Expired(s.store, 9);
    hide DoScan, DoPassLoad, DoPassSearch, ParkChart, WellFormed;
    PassJudges(s, "r");
    var j := s.(passes := s.passes["r" := Judged()]);
    FirstCloseRests(j, "r");
    assert DoPassClose(j, "r").drivers == s.drivers;
    LiveDriverParks(DoPassClose(j, "r"));
  }

  /**
   * The same live driver saving instead: the failed instance is running again with no execution open. No scan at any
   * threshold finds it, so once its driver dies nothing ever brings it to rest. The save is made under an execution
   * closed already.
   */
  lemma HastySave()
    ensures LegalRun(Initial, QUIET) && 9 <= Run(Initial, QUIET).clock
    ensures var s := Run(Initial, QUIET);
            var u := DoPassClose(Judging(s, "r"), "r");
            var t := DoSave(DoExecute(u, "e", Returns(Result("go", map[], false, None))), "e");
            && NoPassActive(s) && !LeaseMeansDead(s, 9)
            && OwnershipShown(u.store, "i") && u.store.instances["i"].status.Failed?
            && "e" in u.store.executions && u.store.executions["e"].outcome.Some?
            && "i" in t.store.instances && t.store.instances["i"].status.Running? && OpenOf(t.store, "i") == {}
            && (forall before, f :: f in Expired(t.store, before) ==> t.store.executions[f].instanceId != "i")
  {
    QuietRun();
    var s := Started(Deciding, 10);
    assert "e" in Expired(s.store, 9);
    hide DoScan, DoPassLoad, DoPassSearch, ParkChart, WellFormed;
    PassJudges(s, "r");
    var j := s.(passes := s.passes["r" := Judged()]);
    FirstCloseRests(j, "r");
    var u := DoPassClose(j, "r");
    assert u.drivers == s.drivers;
    LiveDriverSaves(u);
    var t := DoSave(DoExecute(u, "e", Returns(Result("go", map[], false, None))), "e");
    forall before, f | f in Expired(t.store, before) ensures t.store.executions[f].instanceId != "i" {
      assert f !in OpenOf(t.store, "i");
    }
  }

  lemma LiveDriverSaves(s: State)
    requires s.drivers == Started(Deciding, 10).drivers
    ensures var t := DoSave(DoExecute(s, "e", Returns(Result("go", map[], false, None))), "e");
            && "i" in t.store.instances && t.store.instances["i"].status.Running?
            && OpenOf(t.store, "i") == OpenOf(s.store, "i")
  {
    GoDecided();
    hide ParkChart, Decide, CloseIn;
    var t := DoSave(DoExecute(s, "e", Returns(Result("go", map[], false, None))), "e");
    assert OpenOf(t.store, "i") == OpenOf(s.store, "i");
  }

  lemma GoDecided()
    ensures var d := Decide(Started(Deciding, 10).drivers["e"], Returns(Result("go", map[], false, None)));
            d.pc == Saving && d.inst.status.Running? && d.inst.id == "i"
  {
    ParkChartFacts();
    hide Lookup;
    assert Resolve(WaitState().transitions, "go") == Some("done");
  }

  /** The pass's close leaves the instance failed with no execution open. */
  lemma FirstCloseRests(s: State, r: string)
    requires s.store == Started(Deciding, 10).store && r in s.passes && s.passes[r] == Judged()
    ensures var u := DoPassClose(s, r);
            && OwnershipShown(u.store, "i") && u.store.instances["i"].status.Failed? && OpenOf(u.store, "i") == {}
            && "e" in u.store.executions && u.store.executions["e"].outcome.Some?
  {
    hide ParkChart;
    assert OpenOf(DoPassClose(s, r).store, "i") == {};
  }

  lemma LiveDriverParks(s: State)
    requires s.drivers == Started(Deciding, 10).drivers
    ensures var t := DoClose(DoExecute(s, "e", Returns(Result("", map[], true, None))), "e");
            "i" in t.store.instances && t.store.instances["i"].status.Suspended?
  {
    ParkDecided();
    hide ParkChart, Decide, SaveIn, CloseRow;
  }

  lemma ParkDecided()
    ensures var d := Decide(Started(Deciding, 10).drivers["e"], Returns(Result("", map[], true, None)));
            d.pc == Closing(OutcomeSuspended, None) && d.inst.status.Suspended? && d.inst.id == "i"
  {
    ParkChartFacts();
    hide Resolve, Lookup;
  }

  /** The state after DEAD. */
  function InHand(): State {
    var s := Started(Crashed, 10);
    s.(passes := s.passes["r1" := Judged()])
  }

  lemma DiedRun()
    ensures LegalRun(Initial, DEAD[..3]) && Run(Initial, DEAD[..3]) == Started(Crashed, 10)
  {
    hide ParkChart, WellFormed, Started, Next;
    QuietRun();
    Begin();
    RunOneMore(QUIET, DEAD[2]);
    assert QUIET + [DEAD[2]] == DEAD[..3];
  }

  lemma ScanIsLegal()
    ensures Legal(Started(Crashed, 10), DEAD[3]) && LeaseMeansDead(Started(Crashed, 10), 9) && NoPassActive(Started(Crashed, 10))
  {
    hide ParkChart;
  }

  lemma DeadRun()
    ensures LegalRun(Initial, DEAD) && Run(Initial, DEAD) == InHand()
  {
    hide ParkChart, WellFormed, DoScan, DoPassLoad, DoPassSearch, LeaseMeansDead, NoPassActive, LegalRun, Run;
    DiedRun();
    ScanIsLegal();
    PassJudges(Started(Crashed, 10), "r1");
    RunOneMore(DEAD[..3], DEAD[3]);
    assert DEAD[..3] + [DEAD[3]] == DEAD[..4];
    RunOneMore(DEAD[..4], DEAD[4]);
    assert DEAD[..4] + [DEAD[4]] == DEAD[..5];
    RunOneMore(DEAD[..5], DEAD[5]);
    assert DEAD[..5] + [DEAD[5]] == DEAD;
  }

  /**
   * Two passes over one dead drive. After a legal run the first pass is about to close; a second scan, at a threshold
   * in the past and with every expired driver dead, breaks only the assumption that passes do not overlap. Both then
   * act on the same execution, so the completion hook of one instance fires twice. At the second close ownership is
   * shown, the execution is closed already, and the row is overwritten by a writer holding a stale version.
   */
  lemma ConcurrentPassesNotifyTwice()
    ensures LegalRun(Initial, DEAD) && 9 <= Run(Initial, DEAD).clock
    ensures var one := Run(Initial, DEAD);
            var first := DoPassHook(DoPassClose(Judging(one, "r2"), "r2"), "r2");
            var second := DoPassHook(DoPassClose(first, "r1"), "r1");
            && LeaseMeansDead(one, 9) && !NoPassActive(one)
            && "r1" in first.passes && first.passes["r1"].pc.Writing?
            && OwnershipShown(first.store, "i") && first.store.instances["i"].version != first.passes["r1"].pc.inst.version
            && "e" in first.store.executions && first.store.executions["e"].outcome.Some?
            && second.hooks["i"] == 2
  {
    DeadRun();
    var one := InHand();
    hide DoScan, DoPassLoad, DoPassSearch, DoPassClose, DoPassHook, ParkChart;
    PassJudges(one, "r2");
    var both := one.(passes := one.passes["r2" := Judged()]);
    PassFails(both, "r2");
    FirstCloseRests(both, "r2");
    HookStoresNothing(DoPassClose(both, "r2"), "r2");
    PassFails(DoPassHook(DoPassClose(both, "r2"), "r2"), "r1");
    assert "r1" in one.passes && Active(one.passes["r1"]);
  }

  lemma HookStoresNothing(s: State, r: string)
    ensures DoPassHook(s, r).store == s.store
  {
  }

  // ---------------------------------------------------------------- a lost notice

  /** A chart that is over as soon as it starts. */
  function EndChart(): ChartDef {
    ChartDef("end", "1", "done", [DoneState()])
  }

  /** The driver dies after its closing write, before the hook. */
  const LOST: seq<Action> := [Start("i", EndChart(), map[], "e"), Execute("e", Unregistered), CloseStep("e"), Die("e")]

  lemma EndChartFacts()
    ensures Lookup(EndChart(), EndChart().initial) == Some(DoneState())
    ensures WellFormed(EndChart())
  {
    var c := EndChart();
    assert c.states[0].name == "done";
    assert c.states[0].name in Names(c.states);
  }

  /** A legal run after which the instance is done and its hook never fires, however the run goes on. */
  lemma CrashLosesNotice(more: seq<Action>)
    requires LegalRun(Initial, LOST + more)
    ensures LegalRun(Initial, LOST) && Run(Initial, LOST).lost == {"i"}
    ensures "i" in Run(Initial, LOST).store.instances && Run(Initial, LOST).store.instances["i"].status.Done?
    ensures Run(Initial, LOST + more).hooks["i"] == 0 && !HookPending(Run(Initial, LOST + more), "i")
  {
    hide Next, Legal, HookPending, EndChart;
    LostRun();
    assert (LOST + more)[..|LOST|] == LOST;
    LostForGood(LOST + more, |LOST|, "i");
  }

  lemma LostRun()
    ensures LegalRun(Initial, LOST) && Run(Initial, LOST).lost == {"i"}
    ensures "i" in Run(Initial, LOST).store.instances && Run(Initial, LOST).store.instances["i"].status.Done?
  {
    EndChartFacts();
    EndSteps();
    hide Next, WellFormed, EndChart;
    RunOneMore([], LOST[0]);
    assert [] + [LOST[0]] == LOST[..1];
    RunOneMore(LOST[..1], LOST[1]);
    assert LOST[..1] + [LOST[1]] == LOST[..2];
    RunOneMore(LOST[..2], LOST[2]);
    assert LOST[..2] + [LOST[2]] == LOST[..3];
    RunOneMore(LOST[..3], LOST[3]);
    assert LOST[..3] + [LOST[3]] == LOST;
  }

  /** The driver of the ended chart after `pc`'s step, its instance done. */
  ghost predicate EndsAt(s: State, pc: Pc) {
    "e" in s.drivers && s.drivers["e"].pc == pc && s.drivers["e"].inst.id == "i" && s.drivers["e"].inst.status.Done? && s.lost == {}
  }

  lemma EndBegins()
    ensures EndsAt(Next(Next(Initial, LOST[0]), LOST[1]), Closing(OutcomeDone, None))
  {
    EndChartFacts();
    hide EndChart, Lookup, WellFormed;
    var s := Next(Initial, LOST[0]);
    assert !DeliverySeen(Initial.store.executions, None);
    assert "e" in s.drivers && s.drivers["e"].pc.Deciding? && s.drivers["e"].inst.chartDef == EndChart()
           && s.drivers["e"].inst.current == EndChart().initial && s.drivers["e"].inst.id == "i" && s.lost == {};
  }

  lemma EndSteps()
    ensures var s := Next(Next(Next(Next(Initial, LOST[0]), LOST[1]), LOST[2]), LOST[3]);
            s.lost == {"i"} && "i" in s.store.instances && s.store.instances["i"].status.Done?
  {
    hide DoStart, DoExecute, DoClose, DoDie, EndsAt;
    EndBegins();
    EndCloses(Next(Next(Initial, LOST[0]), LOST[1]));
  }

  lemma EndCloses(s: State)
    requires EndsAt(s, Closing(OutcomeDone, None))
    ensures var t := DoDie(DoClose(s, "e"), "e");
            t.lost == {"i"} && "i" in t.store.instances && t.store.instances["i"].status.Done?
  {
    hide CloseRow, Disown;
  }
}
