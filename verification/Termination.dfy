/**
 * The engine loop is unbounded, but a chart whose every cycle passes a state that stops on cold entry bounds it:
 * only the first call carries the signal, so no two cold calls that go on can be at the same state.
 */
module Termination {
  import opened Prelude
  import opened Charts
  import opened Stores
  import opened Protocol
  import opened Drives

  /** On a call without a signal, the state's executor suspends or errors, whenever and with whatever payload it is asked. */
  ghost predicate StopsCold(reg: Registry, st: StateConfig) {
    st.executor in reg ==>
      forall n: nat, ev: Event {:trigger reg[st.executor](n, ev)} :: ev.name == "" && ev.config == st.config ==>
        var answer := reg[st.executor](n, ev);
        answer.Error? || answer.result.suspend
  }

  ghost predicate StopsAt(reg: Registry, c: ChartDef, name: string) {
    Lookup(c, name).Some? && StopsCold(reg, Lookup(c, name).value)
  }

  ghost predicate Cycle(c: ChartDef, p: seq<string>) {
    Walk(c, p) && |p| >= 2 && p[0] == p[|p| - 1]
  }

  ghost predicate EveryCycleStops(reg: Registry, c: ChartDef) {
    forall p {:trigger Cycle(c, p)} :: Cycle(c, p) ==> exists k :: 0 <= k < |p| && StopsAt(reg, c, p[k])
  }

  lemma {:induction false} NamesAreFew(states: seq<StateConfig>)
    ensures |Names(states)| <= |states|
  {
    if states == [] {
      assert Names(states) == {};
    } else {
      NamesAreFew(states[1..]);
      NamesSplit(states);
    }
  }

  /** A walk through states that do not stop, up to its last state, visits no state twice; so it is no longer than the chart. */
  lemma WalkIsShort(reg: Registry, c: ChartDef, p: seq<string>)
    requires EveryCycleStops(reg, c) && Walk(c, p)
    requires forall k :: 0 <= k < |p| ==> p[k] in Names(c.states)
    requires forall k :: 0 <= k < |p| - 1 ==> !StopsAt(reg, c, p[k])
    ensures |p| <= |c.states|
  {
    hide StopsAt, Walk, EveryCycleStops;
    forall a, b | 0 <= a < b < |p| ensures p[a] != p[b] {
      if p[a] == p[b] {
        var k := LoopingStops(reg, c, p, a, b);
      }
    }
    DistinctFitsIn(p, Names(c.states));
    NamesAreFew(c.states);
  }

  /** A walk that comes back to a state stops somewhere in between. */
  lemma LoopingStops(reg: Registry, c: ChartDef, p: seq<string>, a: nat, b: nat) returns (k: nat)
    requires EveryCycleStops(reg, c) && Walk(c, p) && a < b < |p| && p[a] == p[b]
    ensures a <= k < b && StopsAt(reg, c, p[k])
  {
    hide StopsAt, Edge;
    var q := p[a..b + 1];
    forall j | 0 <= j < |q| - 1 ensures Edge(c, q[j], q[j + 1]) {
      assert Edge(c, p[a + j], p[a + j + 1]);
    }
    assert Cycle(c, q);
    var j :| 0 <= j < |q| && StopsAt(reg, c, q[j]);
    k := if a + j == b then a else a + j;
  }

  /** Once a drive has nothing left to decide, it ends without another executor call and without dying. */
  lemma {:induction false} TailEnds(reg: Registry, s: State, e: string, calls: nat, fuel: nat)
    requires var pc := PcOf(s, e); !pc.Deciding? && !pc.Saving? && !pc.Crashed?
    ensures var end := Loop(reg, s, e, calls, fuel); !PcOf(end.state, e).Crashed? && end.calls == calls
    decreases Rank(PcOf(s, e))
  {
    hide DoClose, DoHook;
    Descends(reg, s, e);
    match PcOf(s, e)
    case Closing(_, _) => TailEnds(reg, DoClose(s, e), e, calls, fuel);
    case Hooking(_) => TailEnds(reg, DoHook(s, e), e, calls, fuel);
    case _ =>
  }

  /** Where a driver that has just been answered stands. */
  lemma Answered(reg: Registry, d: Driver, calls: nat)
    requires d.pc.Deciding? && CallsExecutor(reg, d)
    ensures var d' := Decide(d, Ask(reg, d, calls));
            && !d'.pc.Deciding? && !d'.pc.Crashed?
            && (d'.pc.Saving? ==> d'.inst.chartDef == d.inst.chartDef && Resolved(d, d'.inst.current))
            && (d'.pc.Saving? && (forall st :: EventFor(d, st).name == "") ==> !StopsAt(reg, d.inst.chartDef, d.inst.current))
  {
    hide File;
  }

  ghost predicate Resolved(d: Driver, next: string) {
    var st := Lookup(d.inst.chartDef, d.inst.current);
    st.Some? && exists event :: Resolve(st.value.transitions, event) == Some(next)
  }

  /** The cold part of a drive: `p` is the walk of states left so far, ending where the driver stands. */
  lemma {:induction false} ColdLoopEnds(reg: Registry, s: State, e: string, calls: nat, fuel: nat, p: seq<string>)
    requires e in s.drivers && s.drivers[e].pc.Deciding? && (s.drivers[e].resume.None? || !s.drivers[e].first)
    requires WellFormed(s.drivers[e].inst.chartDef) && EveryCycleStops(reg, s.drivers[e].inst.chartDef)
    requires var c := s.drivers[e].inst.chartDef;
             && Walk(c, p) && p[|p| - 1] == s.drivers[e].inst.current
             && (forall k :: 0 <= k < |p| ==> p[k] in Names(c.states))
             && (forall k :: 0 <= k < |p| - 1 ==> !StopsAt(reg, c, p[k]))
             && |c.states| <= |p| - 1 + fuel
    ensures var end := Loop(reg, s, e, calls, fuel); !PcOf(end.state, e).Crashed?
    decreases fuel
  {
    hide EveryCycleStops, Edge, StopsAt, CloseIn, SaveIn, DoSave, Decide, Ask, CallsExecutor, WellFormed, Names, Resolved, EventFor;
    var d := s.drivers[e];
    var c := d.inst.chartDef;
    WalkIsShort(reg, c, p);
    if !CallsExecutor(reg, d) {
      UncalledCloses(reg, d);
      TailEnds(reg, DoExecute(s, e, Unregistered), e, calls, fuel);
    } else {
      var d' := Decide(d, Ask(reg, d, calls));
      var t := DoExecute(s, e, Ask(reg, d, calls));
      Answered(reg, d, calls);
      if d'.pc.Saving? {
        ColdIsNameless(d);
        ResolvedStep(d, d'.inst.current);
        var u := DoSave(t, e);
        SavedDriver(t, e);
        LoopWrites(reg, t, e, calls + 1, fuel - 1);
        ColdLoopEnds(reg, u, e, calls + 1, fuel - 1, p + [d'.inst.current]);
      } else {
        TailEnds(reg, t, e, calls + 1, fuel - 1);
      }
    }
  }

  lemma SavedDriver(t: State, e: string)
    requires e in t.drivers && t.drivers[e].pc.Saving?
    ensures var u := DoSave(t, e);
            e in u.drivers && u.drivers[e].pc.Deciding? && !u.drivers[e].first
            && u.drivers[e].inst.chartDef == t.drivers[e].inst.chartDef && u.drivers[e].inst.current == t.drivers[e].inst.current
  {
  }

  lemma ColdIsNameless(d: Driver)
    requires d.resume.None? || !d.first
    ensures forall st :: EventFor(d, st).name == ""
  {
  }

  lemma ResolvedStep(d: Driver, next: string)
    requires WellFormed(d.inst.chartDef) && Resolved(d, next)
    ensures Edge(d.inst.chartDef, d.inst.current, next) && next in Names(d.inst.chartDef.states)
  {
    hide WellFormed, Edge;
    var st := Lookup(d.inst.chartDef, d.inst.current).value;
    var event :| Resolve(st.transitions, event) == Some(next);
    ResolvedIsEdge(d.inst.chartDef, d.inst.current, event);
  }

  /**
   * If every cycle of the chart contains a state that suspends or errors on cold entry, a drive, whether a start or a
   * resume, halts after at most |States| + 1 executor calls, whatever else the executors return: allowed that many,
   * it never dies for want of more.
   */
  lemma DriveHalts(reg: Registry, s: State, e: string, calls: nat)
    requires e in s.drivers && s.drivers[e].pc.Deciding?
    requires WellFormed(s.drivers[e].inst.chartDef) && EveryCycleStops(reg, s.drivers[e].inst.chartDef)
    requires s.drivers[e].inst.current in Names(s.drivers[e].inst.chartDef.states)
    ensures var end := Loop(reg, s, e, calls, |s.drivers[e].inst.chartDef.states| + 1);
            !PcOf(end.state, e).Crashed? && end.calls <= calls + |s.drivers[e].inst.chartDef.states| + 1
  {
    hide EveryCycleStops, StopsAt, CloseIn, SaveIn, Decide, Ask, CallsExecutor, WellFormed, Names, Resolved, EventFor;
    var d := s.drivers[e];
    var n := |d.inst.chartDef.states|;
    CallsWithinFuel(reg, s, e, calls, n + 1);
    if d.resume.None? || !d.first {
      ColdLoopEnds(reg, s, e, calls, n + 1, [d.inst.current]);
    } else if !CallsExecutor(reg, d) {
      UncalledCloses(reg, d);
      TailEnds(reg, DoExecute(s, e, Unregistered), e, calls, n + 1);
    } else {
      var d' := Decide(d, Ask(reg, d, calls));
      var t := DoExecute(s, e, Ask(reg, d, calls));
      Answered(reg, d, calls);
      if d'.pc.Saving? {
        ResolvedStep(d, d'.inst.current);
        SavedDriver(t, e);
        LoopWrites(reg, t, e, calls + 1, n);
        ColdLoopEnds(reg, DoSave(t, e), e, calls + 1, n, [d'.inst.current]);
      } else {
        TailEnds(reg, t, e, calls + 1, n);
      }
    }
  }

  /** So under that condition the allowance is immaterial: every larger one gives the same drive. */
  lemma AllowanceIsImmaterial(reg: Registry, s: State, e: string, calls: nat, fuel: nat)
    requires e in s.drivers && s.drivers[e].pc.Deciding?
    requires WellFormed(s.drivers[e].inst.chartDef) && EveryCycleStops(reg, s.drivers[e].inst.chartDef)
    requires s.drivers[e].inst.current in Names(s.drivers[e].inst.chartDef.states)
    requires fuel >= |s.drivers[e].inst.chartDef.states| + 1
    ensures var end := Loop(reg, s, e, calls, fuel);
            !PcOf(end.state, e).Crashed? && end == Loop(reg, s, e, calls, |s.drivers[e].inst.chartDef.states| + 1)
  {
    hide EveryCycleStops, WellFormed, Names, Loop;
    DriveHalts(reg, s, e, calls);
    MoreFuel(reg, s, e, calls, |s.drivers[e].inst.chartDef.states| + 1, fuel);
  }

  lemma {:induction false} CallsWithinFuel(reg: Registry, s: State, e: string, calls: nat, fuel: nat)
    ensures calls <= Loop(reg, s, e, calls, fuel).calls <= calls + fuel
    decreases fuel, Rank(PcOf(s, e))
  {
    hide DoExecute, DoSave, DoClose, DoHook, Ask, CallsExecutor;
    Descends(reg, s, e);
    match PcOf(s, e)
    case Deciding =>
      if !CallsExecutor(reg, s.drivers[e]) {
        CallsWithinFuel(reg, DoExecute(s, e, Unregistered), e, calls, fuel);
      } else if fuel > 0 {
        CallsWithinFuel(reg, DoExecute(s, e, Ask(reg, s.drivers[e], calls)), e, calls + 1, fuel - 1);
      }
    case Saving => CallsWithinFuel(reg, DoSave(s, e), e, calls, fuel);
    case Closing(_, _) => CallsWithinFuel(reg, DoClose(s, e), e, calls, fuel);
    case Hooking(_) => CallsWithinFuel(reg, DoHook(s, e), e, calls, fuel);
    case _ =>
  }
}
