/** One recovery pass run to its end with no other actor in between: total, and touching nothing it should not. */
module Recovery {
  import opened Prelude
  import opened Stores
  import opened Protocol
  import opened Invariant
  import opened Preservation
  import opened Steps
  import opened Guarantees

  function ParkOf(s: State, i: string): string {
    if i in s.parks then s.parks[i] else ""
  }

  /** The four steps a pass takes over the next execution in its queue. */
  function RecoverNext(s: State, r: string): State {
    var s1 := DoPassLoad(s, r);
    var s2 := if r in s1.passes && s1.passes[r].pc.Searching? then DoPassSearch(s1, r, ParkOf(s1, s1.passes[r].pc.inst.id)) else s1;
    var s3 := DoPassClose(s2, r);
    DoPassHook(s3, r)
  }

  /** The whole queue, one execution after another. */
  function RecoverQueue(s: State, r: string, n: nat): State
    decreases n
  {
    if n == 0 then s else RecoverQueue(RecoverNext(s, r), r, n - 1)
  }

  /** A pass: scan for expired executions, then recover each. */
  function RecoverAll(s: State, r: string, before: nat, order: seq<string>): State {
    RecoverQueue(DoScan(s, r, before, order), r, |order|)
  }

  /** What recovery makes of a crashed drive's row: back to the last park, or failed if there is none. */
  ghost function Verdict(s: State, i: string): InstanceRecord
    requires i in s.store.instances
  {
    var r := s.store.instances[i];
    if i in s.parks && s.parks[i] in s.store.executions then
      var cp := s.store.executions[s.parks[i]];
      r.(status := Suspended, current := cp.suspendedAtState, wakeOn := cp.suspendedWakeOn, wakeAt := None)
    else r.(status := Failed)
  }

  /** The pass is between executions, with this queue and count. */
  ghost predicate Between(s: State, r: string, queue: seq<Execution>, recovered: nat) {
    r in s.passes && s.passes[r] == Pass(queue, Fetching, recovered)
  }

  /** `t` is `s` with the one crashed execution `x` recovered, and nothing else different in the tables. */
  ghost predicate Recovered(s: State, t: State, x: Execution) {
    var i := x.instanceId;
    && i in s.store.instances && x.id in s.store.executions
    && t.clock == s.clock + 1
    && t.store.instances == s.store.instances[i := Stamp(Verdict(s, i), t.clock)]
    && t.store.executions == s.store.executions[x.id :=
         s.store.executions[x.id].(finishedAt := Some(t.clock), outcome := Some(OutcomeCrashed), heartbeatAt := t.clock,
                                   error := Some(if i in s.parks then DiedAndRolledBack else DiedBeforeFirstPark))]
    && t.hooks == (if i in s.parks then s.hooks else s.hooks + multiset{i})
    && t.parks == s.parks && t.drivers == s.drivers
  }

  lemma LoadFinds(s: State, r: string, queue: seq<Execution>, n: nat)
    requires Inv(s) && Between(s, r, queue, n) && queue != []
    ensures var x := queue[0];
            && Victim(s, x) && x.instanceId in s.store.instances && s.store.instances[x.instanceId].id == x.instanceId
            && DoPassLoad(s, r) == s.(passes := s.passes[r := Pass(queue[1..], Searching(x, s.store.instances[x.instanceId]), n)])
            && s.store.executions[x.id].outcome.None? && s.store.executions[x.id].error.None?
  {
    hide InstancesOK, DeliveriesUnique, OwnerOK, RowOK, ClosedOK;
    assert PassOK(s, r);
    assert Victim(s, queue[0]);
    VictimRuns(s, queue[0]);
    assert ExecutionOK(s, queue[0].id);
  }

  /** In every reachable state, whatever else is interleaved: the instance a pass loads next is there and still running. */
  lemma CrashedIsStillRunning(s: State, r: string)
    requires Reached(s) && r in s.passes && s.passes[r].pc.Fetching? && s.passes[r].queue != []
    ensures DoPassLoad(s, r).passes[r].pc.Searching?
  {
    hide Inv, LegalRun, Run, Victim;
    ReachedInv(s);
    LoadFinds(s, r, s.passes[r].queue, s.passes[r].recovered);
  }

  lemma SearchJudges(s: State, r: string, queue: seq<Execution>, x: Execution, n: nat)
    requires Inv(s) && Victim(s, x) && x.instanceId in s.store.instances && s.store.instances[x.instanceId].id == x.instanceId
    requires r in s.passes && s.passes[r] == Pass(queue, Searching(x, s.store.instances[x.instanceId]), n)
    ensures DoPassSearch(s, r, ParkOf(s, x.instanceId)) ==
            s.(passes := s.passes[r := Pass(queue, Writing(x, Verdict(s, x.instanceId),
                                                         if x.instanceId in s.parks then RollBack else MarkFailed), n)])
  {
    hide Inv, NeverParked, LastPark;
    var i := x.instanceId;
    LastParkIsUnique(s, i, ParkOf(s, i));
    if i in s.parks { ParkStands(s, i); }
  }

  lemma CloseRecovers(s: State, r: string, queue: seq<Execution>, x: Execution, n: nat)
    requires Victim(s, x) && x.instanceId in s.store.instances && s.store.instances[x.instanceId].id == x.instanceId
    requires s.store.executions[x.id].error.None?
    requires r in s.passes && s.passes[r] == Pass(queue, Writing(x, Verdict(s, x.instanceId),
                                                               if x.instanceId in s.parks then RollBack else MarkFailed), n)
    requires x.instanceId in s.parks ==> s.parks[x.instanceId] in s.store.executions
    ensures var t := DoPassHook(DoPassClose(s, r), r);
            Recovered(s, t, x) && Between(t, r, queue, n + 1)
  {
    hide Stamp, Disown;
  }

  /** Recovering the head of the queue recovers exactly that execution, counts it, and leaves the rest of the queue. */
  lemma RecoverOne(s: State, r: string, queue: seq<Execution>, n: nat)
    requires Inv(s) && Between(s, r, queue, n) && queue != []
    ensures var t := RecoverNext(s, r);
            && Inv(t) && Recovered(s, t, queue[0]) && Between(t, r, queue[1..], n + 1) && OthersAside(s, t, r)
  {
    hide Inv, DoPassLoad, DoPassSearch, DoPassClose, DoPassHook, Verdict, Victim, Recovered;
    var x := queue[0];
    var i := x.instanceId;
    LoadFinds(s, r, queue, n);
    PassLoadKeeps(s, r);
    var s1 := DoPassLoad(s, r);
    SameVictim(s, s1, x);
    SearchJudges(s1, r, queue[1..], x, n);
    PassSearchKeeps(s1, r, ParkOf(s1, i));
    var s2 := DoPassSearch(s1, r, ParkOf(s1, i));
    PassCloseKeeps(s2, r);
    PassHookKeeps(DoPassClose(s2, r), r);
    SameVictim(s, s2, x);
    if i in s.parks { ParkStands(s, i); }
    CloseRecovers(s2, r, queue[1..], x, n);
    PassesAside(s, s2, DoPassHook(DoPassClose(s2, r), r), x);
    OthersStand(s, r, ParkOf(s1, i));
    OthersStand(s1, r, ParkOf(s1, i));
    OthersStand(s2, r, ParkOf(s1, i));
    OthersStand(DoPassClose(s2, r), r, ParkOf(s1, i));
  }

  /** Every pass but `r` stands as it did. */
  ghost predicate OthersAside(s: State, t: State, r: string) {
    forall q {:trigger q in t.passes} :: q != r && q in t.passes ==> q in s.passes && t.passes[q] == s.passes[q]
  }

  lemma OthersStand(s: State, r: string, at: string)
    ensures OthersAside(s, DoPassLoad(s, r), r) && OthersAside(s, DoPassSearch(s, r, at), r)
    ensures OthersAside(s, DoPassClose(s, r), r) && OthersAside(s, DoPassHook(s, r), r)
  {
    hide CloseIn, NeverParked, LastPark;
  }

  lemma SameVictim(s: State, t: State, x: Execution)
    requires t == s.(passes := t.passes)
    ensures Victim(t, x) == Victim(s, x)
    ensures forall i :: i in s.store.instances ==> Verdict(t, i) == Verdict(s, i)
  {
  }

  lemma PassesAside(s: State, s2: State, t: State, x: Execution)
    requires s2 == s.(passes := s2.passes) && Recovered(s2, t, x)
    ensures Recovered(s, t, x)
  {
    hide Verdict;
    if x.instanceId in s.store.instances { SameVictim(s, s2, x); }
  }

  // ---------------------------------------------------------------- the whole pass

  ghost predicate InQueue(queue: seq<Execution>, i: string) {
    exists k :: 0 <= k < |queue| && queue[k].instanceId == i
  }

  ghost predicate IdInQueue(queue: seq<Execution>, e: string) {
    exists k :: 0 <= k < |queue| && queue[k].id == e
  }

  /** `j` was recovered to what its row called for in `s`. */
  ghost predicate RowRecovered(s: State, t: State, i: string) {
    && i in s.store.instances && i in t.store.instances
    && t.store.instances[i] == Verdict(s, i).(version := s.store.instances[i].version + 1, updatedAt := t.store.instances[i].updatedAt)
  }

  /** Every execution in the queue is closed as crashed and its instance recovered; everything else is as it was. */
  ghost predicate QueueRecovered(s: State, t: State, queue: seq<Execution>) {
    && t.store.instances.Keys == s.store.instances.Keys && t.store.executions.Keys == s.store.executions.Keys
    && t.parks == s.parks && t.drivers == s.drivers
    && (forall i :: i in s.store.instances ==> RowFate(s, t, queue, i))
    && (forall e :: e in s.store.executions ==> ExecutionFate(s, t, queue, e))
  }

  ghost predicate RowFate(s: State, t: State, queue: seq<Execution>, i: string) {
    && i in s.store.instances && i in t.store.instances
    && (if InQueue(queue, i) then RowRecovered(s, t, i) else t.store.instances[i] == s.store.instances[i])
    && t.hooks[i] == s.hooks[i] + Count(InQueue(queue, i) && i !in s.parks)
  }

  ghost predicate ExecutionFate(s: State, t: State, queue: seq<Execution>, e: string) {
    && e in s.store.executions && e in t.store.executions
    && var x, x' := s.store.executions[e], t.store.executions[e];
    && if IdInQueue(queue, e)
       then Struck(x, x', x.instanceId in s.parks)
       else x' == x
  }

  /** The record as recovery closes it, with the reason; the rest of it stands. */
  ghost predicate Struck(x: Execution, x': Execution, parked: bool) {
    && x'.outcome == Some(OutcomeCrashed) && x'.error == Some(if parked then DiedAndRolledBack else DiedBeforeFirstPark)
    && x'.finishedAt == Some(x'.heartbeatAt)
    && x' == x.(outcome := x'.outcome, error := x'.error, finishedAt := x'.finishedAt, heartbeatAt := x'.heartbeatAt)
  }

  lemma {:induction false} RecoverQueueDoes(s: State, r: string, queue: seq<Execution>, n: nat)
    requires Inv(s) && Between(s, r, queue, n)
    ensures var t := RecoverQueue(s, r, |queue|);
            && Inv(t) && Between(t, r, [], n + |queue|) && QueueRecovered(s, t, queue) && OthersAside(s, t, r)
    decreases |queue|
  {
    hide Inv, RecoverNext, QueueRecovered, Recovered;
    if queue == [] {
      EmptyQueue(s);
    } else {
      var u := RecoverNext(s, r);
      RecoverOne(s, r, queue, n);
      RecoverQueueDoes(u, r, queue[1..], n + 1);
      QueueHead(s, r, queue, n, u, RecoverQueue(u, r, |queue| - 1));
    }
  }

  lemma EmptyQueue(s: State)
    ensures QueueRecovered(s, s, [])
  {
  }

  /** The head's instance and execution are not the rest of the queue's. */
  lemma HeadApart(s: State, r: string, queue: seq<Execution>, n: nat)
    requires Inv(s) && Between(s, r, queue, n) && queue != []
    ensures queue[0].id in s.store.executions && s.store.executions[queue[0].id].outcome.None?
    ensures s.store.executions[queue[0].id].instanceId == queue[0].instanceId
    ensures queue[0].instanceId in s.store.instances && s.store.instances[queue[0].instanceId].createdAt >= 1
    ensures !InQueue(queue[1..], queue[0].instanceId) && !IdInQueue(queue[1..], queue[0].id)
    ensures forall i :: i in s.parks ==> s.parks[i] in s.store.executions && s.parks[i] != queue[0].id
  {
    hide InstancesOK, ExecutionsOK, DeliveriesUnique, OwnerOK, OnChart, AgreeOutside;
    assert PassOK(s, r);
    assert Victim(s, queue[0]);
    VictimRuns(s, queue[0]);
    forall k | 1 <= k < |queue| ensures queue[k].id != queue[0].id && queue[k].instanceId != queue[0].instanceId {
      assert Victim(s, queue[k]);
      VictimRuns(s, queue[k]);
    }
    forall i | i in s.parks ensures s.parks[i] in s.store.executions && s.parks[i] != queue[0].id { ParkStands(s, i); }
  }

  lemma QueueHead(s: State, r: string, queue: seq<Execution>, n: nat, u: State, t: State)
    requires Inv(s) && Between(s, r, queue, n) && queue != []
    requires Recovered(s, u, queue[0]) && QueueRecovered(u, t, queue[1..])
    ensures QueueRecovered(s, t, queue)
  {
    hide Inv, RowFate, ExecutionFate, Verdict;
    HeadApart(s, r, queue, n);
    forall i | i in s.store.instances ensures RowFate(s, t, queue, i) { HeadRow(s, queue, u, t, i); }
    forall e | e in s.store.executions ensures ExecutionFate(s, t, queue, e) { HeadExecution(s, queue, u, t, e); }
  }

  lemma HeadRow(s: State, queue: seq<Execution>, u: State, t: State, i: string)
    requires queue != [] && !InQueue(queue[1..], queue[0].instanceId) && i in s.store.instances
    requires queue[0].instanceId in s.store.instances && s.store.instances[queue[0].instanceId].createdAt >= 1
    requires forall j :: j in s.parks ==> s.parks[j] in s.store.executions && s.parks[j] != queue[0].id
    requires Recovered(s, u, queue[0]) && RowFate(u, t, queue[1..], i)
    ensures RowFate(s, t, queue, i)
  {
    hide InQueue;
    InQueueSplit(queue, i, "");
  }

  lemma HeadExecution(s: State, queue: seq<Execution>, u: State, t: State, e: string)
    requires queue != [] && !IdInQueue(queue[1..], queue[0].id) && e in s.store.executions
    requires Recovered(s, u, queue[0]) && ExecutionFate(u, t, queue[1..], e)
    requires s.store.executions[queue[0].id].instanceId == queue[0].instanceId
    ensures ExecutionFate(s, t, queue, e)
  {
    hide IdInQueue, Verdict;
    InQueueSplit(queue, "", e);
  }

  lemma InQueueSplit(queue: seq<Execution>, i: string, e: string)
    requires queue != []
    ensures InQueue(queue, i) <==> i == queue[0].instanceId || InQueue(queue[1..], i)
    ensures IdInQueue(queue, e) <==> e == queue[0].id || IdInQueue(queue[1..], e)
  {
    if InQueue(queue[1..], i) {
      var k :| 0 <= k < |queue| - 1 && queue[1..][k].instanceId == i;
      assert queue[k + 1].instanceId == i;
    }
    if IdInQueue(queue[1..], e) {
      var k :| 0 <= k < |queue| - 1 && queue[1..][k].id == e;
      assert queue[k + 1].id == e;
    }
    if InQueue(queue, i) {
      var k :| 0 <= k < |queue| && queue[k].instanceId == i;
      if k > 0 { assert queue[1..][k - 1].instanceId == i; }
    }
    if IdInQueue(queue, e) {
      var k :| 0 <= k < |queue| && queue[k].id == e;
      if k > 0 { assert queue[1..][k - 1].id == e; }
    }
  }

  /** The instance of some expired execution. */
  ghost predicate Stale(st: Store, before: nat, i: string) {
    exists e :: e in Expired(st, before) && st.executions[e].instanceId == i
  }

  /** By the tables alone: back at the last checkpoint with no deadline, or failed if there is none; all else untouched. */
  ghost predicate SetRight(st: Store, st': Store, i: string) {
    && i in st.instances && i in st'.instances
    && var r, r' := st.instances[i], st'.instances[i];
    && (NeverParked(st, i) ==> r' == r.(status := Failed, version := r.version + 1, updatedAt := r'.updatedAt))
    && (forall at :: LastPark(st, i, at) ==>
          r' == r.(status := Suspended, current := st.executions[at].suspendedAtState, wakeOn := st.executions[at].suspendedWakeOn,
                   wakeAt := None, version := r.version + 1, updatedAt := r'.updatedAt))
  }

  /**
   * One pass, alone: every expired open execution ends closed as crashed, its instance set right; every other instance
   * and execution is untouched; the count is the number found; each failed instance is announced once; and a second
   * scan at the same threshold finds nothing.
   */
  lemma PassIsTotalAndFramed(s: State, r: string, before: nat, order: seq<string>)
    requires Inv(s) && NoPassActive(s) && LeaseMeansDead(s, before) && Enumerates(order, Expired(s.store, before))
    ensures var t := RecoverAll(s, r, before, order);
            && Inv(t) && NoPassActive(t)
            && r in t.passes && t.passes[r].recovered == |Expired(s.store, before)|
            && t.store.instances.Keys == s.store.instances.Keys && t.store.executions.Keys == s.store.executions.Keys
            && (forall e :: e in s.store.executions ==>
                  if e in Expired(s.store, before) then
                    Struck(s.store.executions[e], t.store.executions[e], !NeverParked(s.store, s.store.executions[e].instanceId))
                  else t.store.executions[e] == s.store.executions[e])
            && (forall i :: i in s.store.instances ==>
                  && (if Stale(s.store, before, i) then SetRight(s.store, t.store, i)
                      else t.store.instances[i] == s.store.instances[i])
                  && t.hooks[i] == s.hooks[i] + Count(Stale(s.store, before, i) && NeverParked(s.store, i)))
            && Expired(t.store, before) == {}
  {
    hide Inv, NeverParked, LastPark, RecoverQueue, RowFate, ExecutionFate, LeaseMeansDead, Stale, Active, DoScan;
    var u := DoScan(s, r, before, order);
    ScanKeeps(s, r, before, order);
    var queue := QueueOf(s, order);
    ScanIsBetween(s, r, before, order);
    RecoverQueueDoes(u, r, queue, 0);
    var t := RecoverQueue(u, r, |order|);
    forall e | e in s.store.executions
      ensures if e in Expired(s.store, before)
              then Struck(s.store.executions[e], t.store.executions[e], !NeverParked(s.store, s.store.executions[e].instanceId))
              else t.store.executions[e] == s.store.executions[e]
    {
      QueueIsExpired(s, before, order, e, "");
      ScannedExecution(s, u, t, queue, e);
    }
    forall i | i in s.store.instances
      ensures if Stale(s.store, before, i) then SetRight(s.store, t.store, i) else t.store.instances[i] == s.store.instances[i]
      ensures t.hooks[i] == s.hooks[i] + Count(Stale(s.store, before, i) && NeverParked(s.store, i))
    {
      QueueIsExpired(s, before, order, "", i);
      ScannedRow(s, u, t, queue, i);
    }
    CountIsSize(order, Expired(s.store, before));
    IdleAfter(s, u, t, r, |order|);
  }

  function QueueOf(s: State, order: seq<string>): seq<Execution> {
    seq(|order|, k requires 0 <= k < |order| => if order[k] in s.store.executions then s.store.executions[order[k]]
                                               else NewExecution("", "", OnStart, None))
  }

  lemma ScanIsBetween(s: State, r: string, before: nat, order: seq<string>)
    requires NoPassActive(s) && Enumerates(order, Expired(s.store, before))
    ensures var u := DoScan(s, r, before, order);
            Between(u, r, QueueOf(s, order), 0) && u == s.(passes := u.passes)
            && OthersAside(s, u, r)
  {
    var u := DoScan(s, r, before, order);
    forall k | 0 <= k < |order| ensures order[k] in s.store.executions { assert order[k] in Expired(s.store, before); }
    assert u.passes[r].queue == QueueOf(s, order);
  }

  /** The queue holds exactly the expired executions. */
  lemma QueueIsExpired(s: State, before: nat, order: seq<string>, e: string, i: string)
    requires Inv(s) && Enumerates(order, Expired(s.store, before))
    ensures IdInQueue(QueueOf(s, order), e) <==> e in Expired(s.store, before)
    ensures InQueue(QueueOf(s, order), i) <==> Stale(s.store, before, i)
  {
    hide InstancesOK, PassesOK, DeliveriesUnique, ClosedOK, Distinct;
    var queue := QueueOf(s, order);
    forall k | 0 <= k < |order| ensures order[k] in Expired(s.store, before) && queue[k] == s.store.executions[order[k]] && queue[k].id == order[k] {
      assert order[k] in Expired(s.store, before);
      assert ExecutionOK(s, order[k]);
    }
    if e in Expired(s.store, before) {
      var k :| 0 <= k < |order| && order[k] == e;
      assert queue[k].id == e;
    }
    if Stale(s.store, before, i) {
      var f :| f in Expired(s.store, before) && s.store.executions[f].instanceId == i;
      var k :| 0 <= k < |order| && order[k] == f;
      assert queue[k].instanceId == i;
    }
  }

  lemma ScannedExecution(s: State, u: State, t: State, queue: seq<Execution>, e: string)
    requires Inv(s) && u == s.(passes := u.passes) && QueueRecovered(u, t, queue) && e in s.store.executions
    ensures e in t.store.executions
    ensures if IdInQueue(queue, e)
            then Struck(s.store.executions[e], t.store.executions[e], !NeverParked(s.store, s.store.executions[e].instanceId))
            else t.store.executions[e] == s.store.executions[e]
  {
    hide Inv, IdInQueue, RowFate, NeverParked, LastPark, Struck;
    LastParkIsUnique(s, s.store.executions[e].instanceId, "");
    assert ExecutionFate(u, t, queue, e);
  }

  lemma ScannedRow(s: State, u: State, t: State, queue: seq<Execution>, i: string)
    requires Inv(s) && u == s.(passes := u.passes) && QueueRecovered(u, t, queue) && i in s.store.instances
    ensures i in t.store.instances
    ensures if InQueue(queue, i) then SetRight(s.store, t.store, i) else t.store.instances[i] == s.store.instances[i]
    ensures t.hooks[i] == s.hooks[i] + Count(InQueue(queue, i) && NeverParked(s.store, i))
  {
    hide Inv, InQueue, ExecutionFate, NeverParked, LastPark;
    assert RowFate(u, t, queue, i);
    if i in s.parks { ParkStands(s, i); }
    LastParkIsUnique(s, i, "");
    forall at ensures LastPark(s.store, i, at) <==> (i in s.parks && at == s.parks[i]) { LastParkIsUnique(s, i, at); }
  }

  lemma {:induction false} CountIsSize(order: seq<string>, pool: set<string>)
    requires Enumerates(order, pool)
    ensures |order| == |pool|
  {
    if order == [] {
      assert pool == {};
    } else {
      var e := order[|order| - 1];
      var rest := order[..|order| - 1];
      forall f | f in pool - {e} ensures f in rest {
        var k :| 0 <= k < |order| && order[k] == f;
        assert rest[k] == f;
      }
      CountIsSize(rest, pool - {e});
    }
  }

  /** Only pass `r` has moved, and it has nothing left to do. */
  lemma IdleAfter(s: State, u: State, t: State, r: string, n: nat)
    requires NoPassActive(s) && Between(t, r, [], n)
    requires OthersAside(s, u, r) && OthersAside(u, t, r)
    ensures NoPassActive(t)
  {
    forall q | q in t.passes ensures !Active(t.passes[q]) {
      if q != r { assert !Active(s.passes[q]); }
    }
  }

  // ---------------------------------------------------------------- a pass is a run of the protocol

  lemma RoundIsRun(s: State, r: string)
    ensures Leads(s, RecoverNext(s, r))
  {
    hide Leads, DoPassLoad, DoPassSearch, DoPassClose, DoPassHook, ParkOf;
    var s1 := DoPassLoad(s, r);
    LeadsStep(s, PassLoad(r));
    var s2 := if r in s1.passes && s1.passes[r].pc.Searching? then DoPassSearch(s1, r, ParkOf(s1, s1.passes[r].pc.inst.id)) else s1;
    if r in s1.passes && s1.passes[r].pc.Searching? {
      LeadsStep(s1, PassSearch(r, ParkOf(s1, s1.passes[r].pc.inst.id)));
      LeadsJoin(s, s1, s2);
    }
    var s3 := DoPassClose(s2, r);
    LeadsStep(s2, PassClose(r));
    LeadsJoin(s, s2, s3);
    LeadsStep(s3, PassHook(r));
    LeadsJoin(s, s3, DoPassHook(s3, r));
  }

  lemma {:induction false} QueueIsRun(s: State, r: string, n: nat)
    ensures Leads(s, RecoverQueue(s, r, n))
    decreases n
  {
    hide Leads, RecoverNext;
    if n == 0 {
      LeadsNowhere(s);
    } else {
      RoundIsRun(s, r);
      QueueIsRun(RecoverNext(s, r), r, n - 1);
      LeadsJoin(s, RecoverNext(s, r), RecoverQueue(s, r, n));
    }
  }

  /** A whole pass is a legal run, provided it begins as a legal scan does. */
  lemma PassIsRun(s: State, r: string, before: nat, order: seq<string>)
    requires NoPassActive(s) && LeaseMeansDead(s, before)
    ensures Leads(s, RecoverAll(s, r, before, order))
  {
    hide Leads, DoScan, RecoverQueue, NoPassActive, LeaseMeansDead;
    LeadsStep(s, Scan(r, before, order));
    QueueIsRun(DoScan(s, r, before, order), r, |order|);
    LeadsJoin(s, DoScan(s, r, before, order), RecoverAll(s, r, before, order));
  }

  // ---------------------------------------------------------------- nothing is ever stranded

  /** Every pass dies. */
  lemma {:induction false} PassesDie(s: State) returns (t: State)
    ensures Leads(s, t) && t.passes == map[]
    ensures t.store == s.store && t.drivers == s.drivers && t.clock == s.clock
    decreases |s.passes|
  {
    hide Leads;
    if s.passes == map[] {
      t := s;
      LeadsNowhere(s);
    } else {
      var r :| r in s.passes;
      var u := DoPassDie(s, r);
      assert u.passes.Keys == s.passes.Keys - {r};
      assert |u.passes| < |s.passes| by { assert |u.passes.Keys| == |s.passes.Keys| - 1; }
      LeadsStep(s, PassDie(r));
      t := PassesDie(u);
      LeadsJoin(s, u, t);
    }
  }

  predicate Stopped(s: State, e: string) {
    e in s.drivers && (s.drivers[e].pc.Finished? || s.drivers[e].pc.Crashed?)
  }

  lemma DieStops(s: State, e: string)
    requires e in s.drivers
    ensures var u := DoDie(s, e);
            && Stopped(u, e) && u.drivers.Keys == s.drivers.Keys && (forall f :: f in s.drivers && Stopped(s, f) ==> Stopped(u, f))
            && u.store == s.store && u.passes == s.passes && u.clock == s.clock
  {
  }

  /** Every driver that is not finished dies. */
  lemma {:induction false} DriversDie(s: State, left: set<string>) returns (t: State)
    requires left <= s.drivers.Keys && forall e :: e in s.drivers && e !in left ==> Stopped(s, e)
    ensures Leads(s, t) && forall e :: e in t.drivers ==> Stopped(t, e)
    ensures t.store == s.store && t.drivers.Keys == s.drivers.Keys && t.passes == s.passes && t.clock == s.clock
    decreases |left|
  {
    hide Leads, DoDie, Stopped;
    if left == {} {
      t := s;
      LeadsNowhere(s);
    } else {
      var e :| e in left;
      var u := DoDie(s, e);
      DieStops(s, e);
      LeadsStep(s, Die(e));
      t := DriversDie(u, left - {e});
      LeadsJoin(s, u, t);
    }
  }

  lemma {:induction false} Enumerable(pool: set<string>) returns (order: seq<string>)
    ensures Enumerates(order, pool)
  {
    if pool == {} {
      order := [];
    } else {
      var e :| e in pool;
      var rest := Enumerable(pool - {e});
      order := [e] + rest;
      forall f | f in pool ensures f in order {
        if f == e { assert order[0] == f; } else { assert f in rest; }
      }
    }
  }

  /** An open execution whose driver has stopped is one whose driver died. */
  lemma OpenDriverDied(s: State, e: string)
    requires Inv(s) && e in s.store.executions && s.store.executions[e].outcome.None? && Stopped(s, e)
    ensures s.drivers[e].pc.Crashed? && s.store.executions[e].heartbeatAt <= s.clock
  {
    hide PassesOK, DeliveriesUnique, ClosedOK, RowOK, HookOK, OriginOK, TrackOK;
    assert ExecutionOK(s, e);
    assert InstanceOK(s, s.store.executions[e].instanceId);
  }

  /**
   * No instance is ever stranded: from every reachable state some legal run, in which whatever is still alive dies and
   * one recovery pass follows, leads to a state with the same instances and none of them running.
   */
  lemma CanAlwaysRest(s: State) returns (t: State)
    requires Reached(s)
    ensures Leads(s, t) && Reached(t) && t.store.instances.Keys == s.store.instances.Keys
    ensures forall i :: i in t.store.instances ==> !t.store.instances[i].status.Running?
  {
    hide Reached, Leads, Inv, Stopped, RecoverAll, Enumerates, Expired, Stale, SetRight, LeaseMeansDead, NeverParked;
    var a := PassesDie(s);
    var b := DriversDie(a, a.drivers.Keys);
    var c := Next(b, Tick(1));
    LeadsStep(b, Tick(1));
    LeadsJoin(s, a, b);
    LeadsJoin(s, b, c);
    ReachedJoin(s, c);
    ReachedInv(c);
    ReachedJoin(s, b);
    ReachedInv(b);
    var order := Enumerable(Expired(c.store, c.clock));
    AllOpenExpired(b, c);
    t := RecoverAll(c, "r", c.clock, order);
    PassIsRun(c, "r", c.clock, order);
    PassIsTotalAndFramed(c, "r", c.clock, order);
    LeadsJoin(s, c, t);
    ReachedJoin(s, t);
    forall i | i in t.store.instances ensures !t.store.instances[i].status.Running? {
      ExclusiveOwnership(t, i);
      assert OpenOf(t.store, i) == {};
    }
  }

  /** A moment after every driver has stopped, every open execution has expired, and its driver is dead. */
  lemma AllOpenExpired(b: State, c: State)
    requires Inv(b) && c == b.(clock := b.clock + 1) && b.passes == map[]
    requires forall e :: e in b.drivers ==> Stopped(b, e)
    ensures NoPassActive(c) && LeaseMeansDead(c, c.clock)
    ensures forall e :: e in c.store.executions && c.store.executions[e].outcome.None? ==> e in Expired(c.store, c.clock)
  {
    hide InstancesOK, ExecutionsOK, PassesOK, DeliveriesUnique, Stopped;
    forall e | e in b.store.executions && b.store.executions[e].outcome.None?
      ensures b.drivers[e].pc.Crashed? && b.store.executions[e].heartbeatAt <= b.clock
    {
      OpenDriverDied(b, e);
    }
  }
}
