/**
 * The static side of the machine (pkg/chart/chart.go): charts, what makes one well formed,
 * the validator that decides it and builds the name index, and walks along a chart's transitions.
 */
module Charts {
  import opened Prelude

  datatype Transition = Transition(on: string, to: string, guard: string)

  datatype StateConfig = StateConfig(
    name: string,
    executor: string,
    config: Payload,
    signals: seq<string>,
    transitions: seq<Transition>,
    terminal: bool)

  datatype ChartDef = ChartDef(id: string, version: string, initial: string, states: seq<StateConfig>)

  function Names(states: seq<StateConfig>): set<string> {
    set k | 0 <= k < |states| :: states[k].name
  }

  /** Linear search by name: the independent meaning of a lookup through the index. */
  function Find(states: seq<StateConfig>, name: string): Option<StateConfig> {
    if states == [] then None
    else if states[0].name == name then Some(states[0])
    else Find(states[1..], name)
  }

  function Lookup(c: ChartDef, name: string): Option<StateConfig> {
    Find(c.states, name)
  }

  lemma {:induction false} FindMeansFirst(states: seq<StateConfig>, name: string)
    ensures Find(states, name).Some? <==> name in Names(states)
    ensures Find(states, name).Some? ==>
              exists k :: 0 <= k < |states| && states[k] == Find(states, name).value && states[k].name == name
                          && forall j :: 0 <= j < k ==> states[j].name != name
  {
    if states == [] {
    } else if states[0].name == name {
      assert states[0].name in Names(states);
    } else {
      FindMeansFirst(states[1..], name);
      if Find(states[1..], name).Some? {
        var k :| 0 <= k < |states| - 1 && states[1..][k] == Find(states[1..], name).value
                 && states[1..][k].name == name && forall j :: 0 <= j < k ==> states[1..][j].name != name;
        assert states[k + 1] == Find(states, name).value;
        forall j | 0 <= j < k + 1 ensures states[j].name != name {
          if j > 0 { assert states[1..][j - 1].name != name; }
        }
      }
      NamesSplit(states);
    }
  }

  lemma NamesSplit(states: seq<StateConfig>)
    requires states != []
    ensures Names(states) == {states[0].name} + Names(states[1..])
  {
    forall k | 0 <= k < |states| ensures states[k].name in {states[0].name} + Names(states[1..]) {
      if k > 0 { assert states[1..][k - 1].name in Names(states[1..]); }
    }
    forall k | 0 <= k < |states| - 1 ensures states[1..][k].name in Names(states) {
      assert states[k + 1].name in Names(states);
    }
  }

  /** With distinct names, the state found under a name is whichever one carries it. */
  lemma FindAt(states: seq<StateConfig>, k: nat)
    requires k < |states|
    requires forall a, b :: 0 <= a < b < |states| ==> states[a].name != states[b].name
    ensures Find(states, states[k].name) == Some(states[k])
  {
    FindMeansFirst(states, states[k].name);
    assert states[k].name in Names(states);
  }

  // ---------------------------------------------------------------- routing

  /** The first transition listed for the event decides. */
  function Resolve(ts: seq<Transition>, event: string): Option<string> {
    if ts == [] then None
    else if ts[0].on == event then Some(ts[0].to)
    else Resolve(ts[1..], event)
  }

  lemma {:induction false} ResolveMeansFirst(ts: seq<Transition>, event: string)
    ensures Resolve(ts, event).None? <==> forall k :: 0 <= k < |ts| ==> ts[k].on != event
    ensures Resolve(ts, event).Some? ==>
              exists k :: 0 <= k < |ts| && ts[k].on == event && ts[k].to == Resolve(ts, event).value
                          && forall j :: 0 <= j < k ==> ts[j].on != event
  {
    if ts == [] {
    } else if ts[0].on == event {
    } else {
      ResolveMeansFirst(ts[1..], event);
      if Resolve(ts[1..], event).Some? {
        var k :| 0 <= k < |ts| - 1 && ts[1..][k].on == event && ts[1..][k].to == Resolve(ts, event).value
                 && forall j :: 0 <= j < k ==> ts[1..][j].on != event;
        assert ts[k + 1].on == event;
        forall j | 0 <= j < k + 1 ensures ts[j].on != event {
          if j > 0 { assert ts[1..][j - 1].on != event; }
        }
      } else {
        forall k | 0 <= k < |ts| ensures ts[k].on != event {
          if k > 0 { assert ts[1..][k - 1].on != event; }
        }
      }
    }
  }

  method ResolveTransition(state: StateConfig, event: string) returns (next: Option<string>)
    ensures next == Resolve(state.transitions, event)
  {
    for k := 0 to |state.transitions|
      invariant Resolve(state.transitions, event) == Resolve(state.transitions[k..], event)
    {
      if state.transitions[k].on == event {
        return Some(state.transitions[k].to);
      }
    }
    return None;
  }

  // ---------------------------------------------------------------- well-formedness

  predicate DistinctNames(states: seq<StateConfig>) {
    forall a, b :: 0 <= a < b < |states| ==> states[a].name != states[b].name
  }

  predicate Triggers(s: StateConfig, event: string) {
    exists k :: 0 <= k < |s.transitions| && s.transitions[k].on == event
  }

  /** The rules one state must obey, given the names the chart defines. */
  predicate StateOK(s: StateConfig, names: set<string>) {
    if s.terminal then s.transitions == [] && s.signals == []
    else
      && s.executor != ""
      && (forall k :: 0 <= k < |s.transitions| ==> s.transitions[k].on != "" && s.transitions[k].to in names)
      && Distinct(s.signals)
      && (forall k :: 0 <= k < |s.signals| ==> s.signals[k] != "" && Triggers(s, s.signals[k]))
  }

  predicate WellFormed(c: ChartDef) {
    && c.id != ""
    && c.initial != ""
    && (forall k :: 0 <= k < |c.states| ==> c.states[k].name != "")
    && DistinctNames(c.states)
    && c.initial in Names(c.states)
    && (forall k :: 0 <= k < |c.states| ==> StateOK(c.states[k], Names(c.states)))
  }

  datatype ChartError =
    | NoId
    | NoInitial
    | Unnamed(at: nat)
    | DuplicateState(name: string)
    | UndefinedInitial
    | TerminalWithTransitions(state: StateConfig)
    | TerminalWithSignals(state: StateConfig)
    | NoExecutor(state: StateConfig)
    | EmptyOn(state: StateConfig)
    | UndefinedTarget(state: StateConfig, on: string, to: string)
    | EmptySignal(state: StateConfig)
    | DuplicateSignal(state: StateConfig, signal: string)
    | UnroutedSignal(state: StateConfig, signal: string)

  /** The reported error is a true statement about the chart. */
  ghost predicate Explains(c: ChartDef, err: ChartError) {
    match err
    case NoId => c.id == ""
    case NoInitial => c.initial == ""
    case Unnamed(k) => k < |c.states| && c.states[k].name == ""
    case DuplicateState(n) => exists a, b :: 0 <= a < b < |c.states| && c.states[a].name == c.states[b].name == n
    case UndefinedInitial => c.initial !in Names(c.states)
    case _ => err.state in c.states && ExplainsState(err, Names(c.states))
  }

  ghost predicate ExplainsState(err: ChartError, names: set<string>) {
    match err
    case TerminalWithTransitions(s) => s.terminal && s.transitions != []
    case TerminalWithSignals(s) => s.terminal && s.signals != []
    case NoExecutor(s) => !s.terminal && s.executor == ""
    case EmptyOn(s) => !s.terminal && exists k :: 0 <= k < |s.transitions| && s.transitions[k].on == ""
    case UndefinedTarget(s, on, to) =>
      !s.terminal && to !in names && exists k :: 0 <= k < |s.transitions| && s.transitions[k].on == on && s.transitions[k].to == to
    case EmptySignal(s) => !s.terminal && "" in s.signals
    case DuplicateSignal(s, sig) =>
      !s.terminal && exists a, b :: 0 <= a < b < |s.signals| && s.signals[a] == s.signals[b] == sig
    case UnroutedSignal(s, sig) => !s.terminal && sig in s.signals && !Triggers(s, sig)
    case _ => false
  }

  lemma StateFault(s: StateConfig, names: set<string>) returns (err: ChartError)
    requires !StateOK(s, names)
    ensures ExplainsState(err, names) && err.state == s
  {
    if s.terminal { return if s.transitions != [] then TerminalWithTransitions(s) else TerminalWithSignals(s); }
    if s.executor == "" { return NoExecutor(s); }
    if k :| 0 <= k < |s.transitions| && !(s.transitions[k].on != "" && s.transitions[k].to in names) {
      return if s.transitions[k].on == "" then EmptyOn(s) else UndefinedTarget(s, s.transitions[k].on, s.transitions[k].to);
    }
    if a, b :| 0 <= a < b < |s.signals| && s.signals[a] == s.signals[b] { return DuplicateSignal(s, s.signals[a]); }
    var k :| 0 <= k < |s.signals| && !(s.signals[k] != "" && Triggers(s, s.signals[k]));
    return if s.signals[k] == "" then EmptySignal(s) else UnroutedSignal(s, s.signals[k]);
  }

  /** The rules and the list of possible faults are one and the same: a chart obeys the rules exactly when no fault is true of it. */
  lemma FaultlessIffWellFormed(c: ChartDef)
    ensures WellFormed(c) <==> forall err :: !Explains(c, err)
  {
    if WellFormed(c) {
      forall err ensures !Explains(c, err) { RulesExclude(c, err); }
    } else if c.id == "" {
      assert Explains(c, NoId);
    } else if c.initial == "" {
      assert Explains(c, NoInitial);
    } else if k :| 0 <= k < |c.states| && c.states[k].name == "" {
      assert Explains(c, Unnamed(k));
    } else if a, b :| 0 <= a < b < |c.states| && c.states[a].name == c.states[b].name {
      assert Explains(c, DuplicateState(c.states[a].name));
    } else if c.initial !in Names(c.states) {
      assert Explains(c, UndefinedInitial);
    } else {
      hide StateOK, ExplainsState;
      var k :| 0 <= k < |c.states| && !StateOK(c.states[k], Names(c.states));
      var err := StateFault(c.states[k], Names(c.states));
      assert Explains(c, err);
    }
  }

  lemma RulesExclude(c: ChartDef, err: ChartError)
    requires WellFormed(c)
    ensures !Explains(c, err)
  {
    hide Names;
    if !(err.NoId? || err.NoInitial? || err.Unnamed? || err.DuplicateState? || err.UndefinedInitial?) && err.state in c.states {
      StateExcludes(err, Names(c.states));
    }
  }

  lemma StateExcludes(err: ChartError, names: set<string>)
    requires !(err.NoId? || err.NoInitial? || err.Unnamed? || err.DuplicateState? || err.UndefinedInitial?) && StateOK(err.state, names)
    ensures !ExplainsState(err, names)
  {
  }

  /** A chart together with the lookup index that validation fills in. */
  class Chart {
    const def: ChartDef
    var index: map<string, nat>

    constructor (def: ChartDef)
      ensures this.def == def && index == map[]
    {
      this.def := def;
      index := map[];
    }

    /** The index maps exactly the chart's state names, each to the position of its state. */
    ghost predicate Indexed()
      reads this
    {
      && index.Keys == Names(def.states)
      && forall n :: n in index ==> index[n] < |def.states| && def.states[index[n]].name == n
    }

    /** Lookup through the index is a linear search. */
    function State(name: string): (r: Option<StateConfig>)
      requires Indexed() && WellFormed(def)
      reads this
      ensures r == Lookup(def, name)
    {
      if name in index then
        FindAt(def.states, index[name]);
        Some(def.states[index[name]])
      else
        FindMeansFirst(def.states, name);
        None
    }

    method Validate() returns (err: Option<ChartError>)
      modifies this
      ensures err.None? <==> WellFormed(def)
      ensures err.None? ==> Indexed()
      ensures err.Some? ==> Explains(def, err.value)
    {
      hide StateOK, Names;
      if def.id == "" { return Some(NoId); }
      if def.initial == "" { return Some(NoInitial); }
      err := BuildIndex();
      if err.Some? { return; }
      if def.initial !in index { return Some(UndefinedInitial); }
      err := CheckStates();
    }

    /** The second pass: every state in turn, against the names the first pass filed. */
    method CheckStates() returns (err: Option<ChartError>)
      requires index.Keys == Names(def.states)
      ensures err.None? <==> forall k :: 0 <= k < |def.states| ==> StateOK(def.states[k], Names(def.states))
      ensures err.Some? ==> Explains(def, err.value)
    {
      hide StateOK, ExplainsState;
      for i := 0 to |def.states|
        invariant forall k :: 0 <= k < i ==> StateOK(def.states[k], Names(def.states))
      {
        err := CheckState(def.states[i], index.Keys);
        if err.Some? { return; }
      }
      return None;
    }

    /** The first pass: names must be present and distinct, and each is filed with its position. */
    method BuildIndex() returns (err: Option<ChartError>)
      modifies this
      ensures err.None? <==> (forall k :: 0 <= k < |def.states| ==> def.states[k].name != "") && DistinctNames(def.states)
      ensures err.None? ==> Indexed()
      ensures err.Some? ==> Explains(def, err.value)
    {
      hide Names, Explains;
      index := map[];
      NoNames(def.states);
      for i := 0 to |def.states|
        invariant index.Keys == Names(def.states[..i])
        invariant forall n :: n in index ==> index[n] < i && def.states[index[n]].name == n
        invariant forall k :: 0 <= k < i ==> def.states[k].name != "" && def.states[k].name in index
        invariant forall a, b :: 0 <= a < b < i ==> def.states[a].name != def.states[b].name
      {
        var s := def.states[i];
        if s.name == "" {
          UnnamedAt(def, i);
          return Some(Unnamed(i));
        }
        if s.name in index {
          ClashAt(def, index[s.name], i);
          return Some(DuplicateState(s.name));
        }
        NamesExtend(def.states, i);
        index := index[s.name := i];
      }
      assert def.states[..|def.states|] == def.states;
      return None;
    }
  }

  lemma NoNames(states: seq<StateConfig>)
    ensures Names(states[..0]) == {}
  {
  }

  lemma UnnamedAt(c: ChartDef, k: nat)
    requires k < |c.states| && c.states[k].name == ""
    ensures Explains(c, Unnamed(k))
  {
  }

  lemma ClashAt(c: ChartDef, a: nat, b: nat)
    requires a < b < |c.states| && c.states[a].name == c.states[b].name
    ensures Explains(c, DuplicateState(c.states[b].name)) && !DistinctNames(c.states)
  {
  }

  lemma NamesExtend(states: seq<StateConfig>, i: nat)
    requires i < |states|
    ensures Names(states[..i + 1]) == Names(states[..i]) + {states[i].name}
  {
    assert forall k :: 0 <= k < i ==> states[..i + 1][k] == states[..i][k];
    forall n | n in Names(states[..i]) + {states[i].name} ensures n in Names(states[..i + 1]) {
      if n == states[i].name {
        assert states[..i + 1][i].name == n;
      } else {
        var k :| 0 <= k < i && states[..i][k].name == n;
        assert states[..i + 1][k].name == n;
      }
    }
  }

  /** The second pass over one state: transitions, then signals against the events seen. */
  method CheckState(s: StateConfig, names: set<string>) returns (err: Option<ChartError>)
    ensures err.None? <==> StateOK(s, names)
    ensures err.Some? ==> (err.value.TerminalWithTransitions? || err.value.TerminalWithSignals? || err.value.NoExecutor?
                           || err.value.EmptyOn? || err.value.UndefinedTarget? || err.value.EmptySignal?
                           || err.value.DuplicateSignal? || err.value.UnroutedSignal?)
                          && err.value.state == s && ExplainsState(err.value, names)
  {
    if s.terminal {
      if |s.transitions| > 0 { return Some(TerminalWithTransitions(s)); }
      if |s.signals| > 0 { return Some(TerminalWithSignals(s)); }
      return None;
    }
    if s.executor == "" { return Some(NoExecutor(s)); }
    var events: set<string> := {};
    for k := 0 to |s.transitions|
      invariant forall j :: 0 <= j < k ==> s.transitions[j].on != "" && s.transitions[j].to in names
      invariant forall ev :: ev in events <==> exists j :: 0 <= j < k && s.transitions[j].on == ev
    {
      var t := s.transitions[k];
      if t.on == "" { return Some(EmptyOn(s)); }
      if t.to !in names { return Some(UndefinedTarget(s, t.on, t.to)); }
      events := events + {t.on};
    }
    var seen: set<string> := {};
    for k := 0 to |s.signals|
      invariant forall sig :: sig in seen <==> exists j :: 0 <= j < k && s.signals[j] == sig
      invariant Distinct(s.signals[..k])
      invariant forall j :: 0 <= j < k ==> s.signals[j] != "" && Triggers(s, s.signals[j])
    {
      var sig := s.signals[k];
      if sig == "" { return Some(EmptySignal(s)); }
      if sig in seen { return Some(DuplicateSignal(s, sig)); }
      seen := seen + {sig};
      if sig !in events { return Some(UnroutedSignal(s, sig)); }
    }
    assert s.signals[..|s.signals|] == s.signals;
    return None;
  }

  // ---------------------------------------------------------------- facts a valid chart gives

  function SignalsAt(c: ChartDef, name: string): seq<string> {
    match Lookup(c, name)
    case None => []
    case Some(st) => st.signals
  }

  /** In a valid chart every defined name is found, and its state obeys the rules. */
  lemma LookupOK(c: ChartDef, name: string)
    requires WellFormed(c) && name in Names(c.states)
    ensures Lookup(c, name).Some?
    ensures Lookup(c, name).value.name == name
    ensures StateOK(Lookup(c, name).value, Names(c.states))
  {
    FindMeansFirst(c.states, name);
  }

  /** A declared signal is non-empty and always routes somewhere inside the chart. */
  lemma SignalRoutes(c: ChartDef, name: string, signal: string)
    requires WellFormed(c) && name in Names(c.states) && signal in SignalsAt(c, name)
    ensures signal != ""
    ensures Lookup(c, name).Some? && !Lookup(c, name).value.terminal
    ensures Resolve(Lookup(c, name).value.transitions, signal).Some?
  {
    LookupOK(c, name);
    var st := Lookup(c, name).value;
    ResolveMeansFirst(st.transitions, signal);
    var k :| 0 <= k < |st.signals| && st.signals[k] == signal;
    assert Triggers(st, st.signals[k]);
  }

  // ---------------------------------------------------------------- walks

  predicate Edge(c: ChartDef, a: string, b: string) {
    Lookup(c, a).Some? && exists k :: 0 <= k < |Lookup(c, a).value.transitions| && Lookup(c, a).value.transitions[k].to == b
  }

  predicate Walk(c: ChartDef, p: seq<string>) {
    p != [] && forall k :: 0 <= k < |p| - 1 ==> Edge(c, p[k], p[k + 1])
  }

  ghost predicate WalkFrom(c: ChartDef, p: seq<string>, a: string, b: string) {
    Walk(c, p) && p[0] == a && p[|p| - 1] == b
  }

  /** `b` can be reached from `a` by following transitions, zero or more of them. */
  ghost predicate Reach(c: ChartDef, a: string, b: string) {
    exists p :: WalkFrom(c, p, a, b)
  }

  lemma ReachSelf(c: ChartDef, a: string)
    ensures Reach(c, a, a)
  {
    assert WalkFrom(c, [a], a, a);
  }

  lemma ReachJoin(c: ChartDef, a: string, b: string, d: string)
    requires Reach(c, a, b) && Reach(c, b, d)
    ensures Reach(c, a, d)
  {
    var p :| WalkFrom(c, p, a, b);
    var q :| WalkFrom(c, q, b, d);
    var w := p + q[1..];
    forall k | 0 <= k < |w| - 1 ensures Edge(c, w[k], w[k + 1]) {
      if k < |p| - 1 {
      } else {
        assert w[k] == q[k - |p| + 1];
      }
    }
    assert WalkFrom(c, w, a, d);
  }

  lemma ReachEdge(c: ChartDef, a: string, b: string, d: string)
    requires Reach(c, a, b) && Edge(c, b, d)
    ensures Reach(c, a, d)
  {
    var p :| WalkFrom(c, p, a, b);
    assert WalkFrom(c, p + [d], a, d);
  }

  /** Taking a resolved transition follows an edge and stays among the defined states. */
  lemma ResolvedIsEdge(c: ChartDef, a: string, event: string)
    requires WellFormed(c) && Lookup(c, a).Some? && Resolve(Lookup(c, a).value.transitions, event).Some?
    ensures Edge(c, a, Resolve(Lookup(c, a).value.transitions, event).value)
    ensures Resolve(Lookup(c, a).value.transitions, event).value in Names(c.states)
  {
    FindMeansFirst(c.states, a);
    LookupOK(c, a);
    ResolveMeansFirst(Lookup(c, a).value.transitions, event);
  }
}
