/** Legal runs after which a caller's retry is refused, and one after which a deadline is gone. */
module Refusals {
  import opened Prelude
  import opened Charts
  import opened Stores
  import opened Protocol
  import opened Invariant
  import opened Steps
  import opened Guarantees
  import opened Checkpoints
  import opened Recovery
  import opened Hazards

  /** An instance parks, waiting for a signal and with a deadline. */
  const PARKED: seq<Action> :=
    [Start("i", ParkChart(), map[], "e")] + [Execute("e", Returns(Result("", map[], true, Some(5))))] + [CloseStep("e")]

  /** The signal arrives under a delivery id. */
  const WOKEN: seq<Action> := PARKED + [Signal("i", "go", map[], "f", Some("d"))]

  /** The executor rejects it, and the release is about to write the claim back. */
  const REJECTED: seq<Action> := WOKEN + [Execute("f", Fails("no", true))] + [ReleaseLoad("f")]

  /** Or the drive dies, and a pass is about to roll it back. */
  const ROLLED: seq<Action> :=
    WOKEN + [Tick(9)] + [Die("f")] + [Scan("r", 9, ["f"])] + [PassLoad("r")] + [PassSearch("r", "e")]

  // ---------------------------------------------------------------- up to the claim

  ghost predicate FirstDriveParked(s: State) {
    && "e" in s.store.executions && s.store.executions["e"].outcome.Some? && s.store.executions["e"].deliveryId == None
    && "i" in s.parks && s.parks["i"] == "e" && s.passes == map[]
  }

  ghost predicate Waits(s: State) {
    && s.clock == 2 && s.store.executions.Keys == {"e"} && FirstDriveParked(s)
    && "i" in s.store.instances
    && var r := s.store.instances["i"];
       r.status.Suspended? && r.id == "i" && r.chartDef == ParkChart() && r.current == "wait" && r.wakeOn == ["go"] && r.wakeAt == Some(5)
  }

  lemma Parks()
    ensures LegalRun(Initial, PARKED) && Waits(Run(Initial, PARKED))
  {
    ParkChartFacts();
    Begin();
    hide ParkChart, WellFormed, Started, Waits, Next, Run, LegalRun;
    RunEmpty();
    RunOneMore([], PARKED[0]);
    assert [] + [PARKED[0]] == [PARKED[0]];
    RunOneMore([PARKED[0]], PARKED[1]);
    RunOneMore([PARKED[0]] + [PARKED[1]], PARKED[2]);
    assert [PARKED[0]] + [PARKED[1]] + [PARKED[2]] == PARKED;
    ParkSteps();
  }

  lemma RunEmpty()
    ensures LegalRun(Initial, []) && Run(Initial, []) == Initial
  {
  }

  lemma ParkSteps()
    ensures Waits(Next(Next(Started(Deciding, 1), PARKED[1]), PARKED[2]))
  {
    DeadlineDecided();
    hide ParkChart, Decide;
  }

  lemma DeadlineDecided()
    ensures var d := Started(Deciding, 1).drivers["e"];
            Decide(d, Returns(Result("", map[], true, Some(5)))) ==
            d.(inst := Row().(status := Suspended, wakeOn := ["go"], wakeAt := Some(5)), pc := Closing(OutcomeSuspended, None))
    ensures ParkChart().initial == "wait"
  {
    ParkChartFacts();
    hide Lookup;
  }

  ghost predicate Claims(s: State) {
    && s.clock == 3 && s.store.executions.Keys == {"e", "f"} && FirstDriveParked(s)
    && (var x := s.store.executions["f"];
        x.outcome.None? && x.heartbeatAt == 3 && x.id == "f" && x.instanceId == "i" && x.deliveryId == Some("d") && x.trigger == OnSignal("go"))
    && "i" in s.store.instances && s.store.instances["i"].status.Running?
    && "f" in s.drivers
    && var d := s.drivers["f"];
       && d.pc.Deciding? && d.first && d.resume == Some(Resume("go", map[])) && d.inst.id == "i"
       && d.inst.chartDef == ParkChart() && d.inst.current == "wait"
       && d.origin.Some? && d.origin.value.wakeAt == Some(5) && d.origin.value.id == "i"
  }

  lemma Wakes()
    ensures LegalRun(Initial, WOKEN) && Claims(Run(Initial, WOKEN))
  {
    hide ParkChart, Waits, Claims, Next, Run, LegalRun;
    Parks();
    RunOneMore(PARKED, Signal("i", "go", map[], "f", Some("d")));
    ClaimStep(Run(Initial, PARKED));
  }

  lemma ClaimStep(s: State)
    requires Waits(s)
    ensures Claims(Next(s, Signal("i", "go", map[], "f", Some("d"))))
  {
    hide ParkChart;
    assert "go" in s.store.instances["i"].wakeOn;
    assert !DeliverySeen(s.store.executions, Some("d"));
  }

  // ---------------------------------------------------------------- rejected

  /**
   * After this legal run the claim is written back, and the instance waits for the signal again. Delivering it again
   * under the rejected delivery's id is refused; under another it is admitted.
   */
  lemma RetryRefusedAfterRejection()
    ensures LegalRun(Initial, REJECTED)
    ensures var s := Run(Initial, REJECTED);
            "f" in s.drivers && s.drivers["f"].pc.ReleaseClosing?
            && var t := DoReleaseClose(s, "f");
               && ClaimIn(t.store, "i", "go", NewExecution("g", "i", OnSignal("go"), Some("d")), t.clock + 1) == Refused(DuplicateDelivery)
               && ClaimIn(t.store, "i", "go", NewExecution("g", "i", OnSignal("go"), Some("d2")), t.clock + 1).Admitted?
  {
    hide ParkChart, Claims, Next, Run, LegalRun, Reached, ClaimIn, DoReleaseClose;
    Wakes();
    RunOneMore(WOKEN, Execute("f", Fails("no", true)));
    RunOneMore(WOKEN + [Execute("f", Fails("no", true))], ReleaseLoad("f"));
    RejectSteps(Run(Initial, WOKEN));
    var s := Run(Initial, REJECTED);
    ReachedIsRun(s);
    RejectedIds(s);
  }

  ghost predicate Rejects(s: State) {
    && "f" in s.drivers && s.drivers["f"].pc.ReleaseClosing? && s.drivers["f"].inst.id == "i"
    && s.drivers["f"].resume == Some(Resume("go", map[]))
    && s.store.executions.Keys == {"e", "f"}
    && s.store.executions["e"].deliveryId == None && s.store.executions["f"].deliveryId == Some("d")
  }

  lemma RejectSteps(s: State)
    requires Claims(s)
    ensures Rejects(Next(Next(s, Execute("f", Fails("no", true))), ReleaseLoad("f")))
  {
    ParkChartFacts();
    hide ParkChart, Lookup;
    assert Decide(s.drivers["f"], Fails("no", true)) == s.drivers["f"].(pc := Releasing);
  }

  lemma RejectedIds(s: State)
    requires Reached(s) && Rejects(s)
    ensures var t := DoReleaseClose(s, "f");
            && ClaimIn(t.store, "i", "go", NewExecution("g", "i", OnSignal("go"), Some("d")), t.clock + 1) == Refused(DuplicateDelivery)
            && ClaimIn(t.store, "i", "go", NewExecution("g", "i", OnSignal("go"), Some("d2")), t.clock + 1).Admitted?
  {
    hide Reached, ClaimIn;
    var t := DoReleaseClose(s, "f");
    RetryAfterRejection(s, "f", "g", Some("d"), t.clock + 1);
    RetryAfterRejection(s, "f", "g", Some("d2"), t.clock + 1);
    assert !DeliverySeen(t.store.executions, Some("d2"));
  }

  // ---------------------------------------------------------------- rolled back

  /**
   * After this legal run, with a threshold in the past, the crashed drive is rolled back. The instance waits for the
   * signal again, but without the deadline it was parked with; and delivering the signal again under the crashed
   * delivery's id is refused, under another it is admitted.
   */
  lemma RetryRefusedAfterRollback()
    ensures LegalRun(Initial, ROLLED) && 9 <= Run(Initial, ROLLED).clock
    ensures Waits(Run(Initial, PARKED)) && Run(Initial, PARKED).store.instances["i"].wakeAt == Some(5)
    ensures var s := Run(Initial, ROLLED);
            "r" in s.passes && s.passes["r"].pc.Writing? && s.passes["r"].pc.duty.RollBack?
            && var t := DoPassClose(s, "r");
               && "i" in t.store.instances && t.store.instances["i"].status.Suspended? && t.store.instances["i"].wakeAt == None
               && ClaimIn(t.store, "i", "go", NewExecution("g", "i", OnSignal("go"), Some("d")), t.clock + 1) == Refused(DuplicateDelivery)
               && ClaimIn(t.store, "i", "go", NewExecution("g", "i", OnSignal("go"), Some("d2")), t.clock + 1).Admitted?
  {
    Parks();
    RollsBack();
    hide ParkChart, Next, Run, LegalRun, Reached, ClaimIn, DoPassClose;
    var s := Run(Initial, ROLLED);
    ReachedIsRun(s);
    RolledIds(s);
  }

  ghost predicate Rolls(s: State) {
    && s.clock == 12 && "r" in s.passes && s.passes["r"].pc.Writing? && s.passes["r"].pc.duty.RollBack?
    && s.passes["r"].pc.x.id == "f" && s.passes["r"].pc.x.instanceId == "i"
    && s.store.executions.Keys == {"e", "f"}
    && s.store.executions["e"].deliveryId == None && s.store.executions["f"].deliveryId == Some("d")
    && s.store.executions["f"].trigger == OnSignal("go")
  }

  lemma RollsBack()
    ensures LegalRun(Initial, ROLLED) && Rolls(Run(Initial, ROLLED))
  {
    hide ParkChart, Claims, Dies, Next, Run, LegalRun, Reached, Rolls, Legal;
    Wakes();
    assert Legal(Run(Initial, WOKEN), Tick(9)) by { AlwaysLegal(Run(Initial, WOKEN)); }
    RunOneMore(WOKEN, Tick(9));
    AlwaysLegal(Run(Initial, WOKEN + [Tick(9)]));
    RunOneMore(WOKEN + [Tick(9)], Die("f"));
    var before := WOKEN + [Tick(9)] + [Die("f")];
    DieSteps(Run(Initial, WOKEN));
    var s := Run(Initial, before);
    ReachedIsRun(s);
    ScanLegal(s);
    RunOneMore(before, Scan("r", 9, ["f"]));
    AlwaysLegal(Run(Initial, before + [Scan("r", 9, ["f"])]));
    RunOneMore(before + [Scan("r", 9, ["f"])], PassLoad("r"));
    AlwaysLegal(Run(Initial, before + [Scan("r", 9, ["f"])] + [PassLoad("r")]));
    RunOneMore(before + [Scan("r", 9, ["f"])] + [PassLoad("r")], PassSearch("r", "e"));
    PassSteps(s);
  }

  lemma AlwaysLegal(s: State)
    ensures Legal(s, Tick(9)) && Legal(s, Die("f")) && Legal(s, PassLoad("r")) && Legal(s, PassSearch("r", "e"))
  {
  }

  ghost predicate Dies(s: State) {
    && s.clock == 12 && s.store.executions.Keys == {"e", "f"} && FirstDriveParked(s)
    && (var x := s.store.executions["f"];
        x.outcome.None? && x.heartbeatAt == 3 && x.id == "f" && x.instanceId == "i" && x.deliveryId == Some("d") && x.trigger == OnSignal("go"))
    && "f" in s.drivers && s.drivers["f"].pc.Crashed?
  }

  lemma DieSteps(s: State)
    requires Claims(s)
    ensures Dies(Next(Next(s, Tick(9)), Die("f")))
  {
    hide ParkChart;
  }

  lemma ScanLegal(s: State)
    requires Dies(s)
    ensures Expired(s.store, 9) == {"f"} && Enumerates(["f"], Expired(s.store, 9))
    ensures NoPassActive(s) && LeaseMeansDead(s, 9) && Legal(s, Scan("r", 9, ["f"]))
  {
  }

  lemma PassSteps(s: State)
    requires Reached(s) && Dies(s)
    ensures Rolls(Next(Next(Next(s, Scan("r", 9, ["f"])), PassLoad("r")), PassSearch("r", "e")))
  {
    hide Reached, Inv, DoScan, DoPassLoad, DoPassSearch, Verdict, Victim, Enumerates, Expired, LeaseMeansDead, NoPassActive;
    ScanLegal(s);
    ReachedInv(s);
    ScanKeeps(s, "r", 9, ["f"]);
    ScanIsBetween(s, "r", 9, ["f"]);
    var u := DoScan(s, "r", 9, ["f"]);
    var queue := QueueOf(s, ["f"]);
    assert queue == [s.store.executions["f"]];
    LoadFinds(u, "r", queue, 0);
    PassLoadKeeps(u, "r");
    var v := DoPassLoad(u, "r");
    SameVictim(u, v, queue[0]);
    SearchJudges(v, "r", [], queue[0], 0);
    assert queue[1..] == [];
  }

  lemma RolledIds(s: State)
    requires Reached(s) && Rolls(s)
    ensures var t := DoPassClose(s, "r");
            && "i" in t.store.instances && t.store.instances["i"].status.Suspended? && t.store.instances["i"].wakeAt == None
            && ClaimIn(t.store, "i", "go", NewExecution("g", "i", OnSignal("go"), Some("d")), t.clock + 1) == Refused(DuplicateDelivery)
            && ClaimIn(t.store, "i", "go", NewExecution("g", "i", OnSignal("go"), Some("d2")), t.clock + 1).Admitted?
  {
    hide Reached, ClaimIn;
    var t := DoPassClose(s, "r");
    RollbackUndoes(s, "r");
    RetryAfterRollback(s, "r", "g", t.clock + 1);
    RollbackIsWakeable(s, "r", "g", Some("d2"), t.clock + 1);
    assert !DeliverySeen(t.store.executions, Some("d2"));
  }
}
