# Durable execution, verified

A model of a durable state-machine engine and proofs about it. An *instance* runs a *chart* pinned to it at its start.
`Start` and `SignalInstance` *drive* an instance: they call the current state's executor, take a transition, save, and
repeat until the instance parks (waits for a signal), is done, or fails. Each drive has an execution record, closed when
the instance comes to rest. A drive may die at any point; `RecoverStale` later finds execution records whose lease has
expired and rolls their instances back to the last park, or fails them if they never parked.

No write checks a version. That drives do not overwrite each other, that rollback lands where it should, and that an
instance is never stranded (`CanAlwaysRest`) all rest on one invariant over the two tables and the history of each run. The invariant, and
what follows from it over every interleaving of any number of drivers, crashes and recovery steps, is the core of this
project.

## Layout

| file | content |
|---|---|
| `Prelude.dfy` | options, decoded values, the pigeonhole principle |
| `Charts.dfy` | charts, the validator with its index, first-match routing, walks |
| `Stores.dfy`, `Memory.dfy` | the store's contract as functions on two tables, and the mutable store proved against it |
| `Protocol.dfy` | the transition system: drivers, recovery passes, crashes; one store call, executor call or hook call a step |
| `Invariant.dfy`, `Preservation.dfy`, `Steps.dfy` | the invariant, and that every action keeps it |
| `Guarantees.dfy`, `Writes.dfy`, `Checkpoints.dfy`, `Notices.dfy`, `Payloads.dfy` | safety over whole runs |
| `Refinement.dfy` | drives are atomic: the protocol refines a park-to-park machine |
| `Recovery.dfy` | one recovery pass on its own, start to end |
| `Hazards.dfy` | what goes wrong without the two unchecked assumptions, and exactly when a write is safe |
| `Refusals.dfy` | legal runs after which a retry is refused, and one that loses a deadline |
| `Drives.dfy`, `Termination.dfy` | one drive as a recursive function, and when it halts |
| `Builtin.dfy`, `Interactive.dfy` | the built-in waiting executors, and the refinement to a plain automaton |
| `Engine.dfy` | the engine as a class over the mutable store, proved to be a run of the protocol |
| `Clone.dfy` | the deep copy of a payload, on heap objects |

Executors are arbitrary: in the protocol each call is answered by any result or error; in `Drives` and `Engine` by any
function of the call's number and event. Identifiers, payloads and the lease's length are parameters.

## Assumptions the code relies on without checking

They are the predicate `Protocol.Legal`, and are hypotheses of every theorem over runs.

- Lease expired means dead: a scan finds only executions whose driver takes no further step (`LeaseMeansDead`).
- One recovery pass at a time (`NoPassActive`).
- The clock moves forward with every store call.
- Charts passed to `Start` have been validated, and the pinned copy reloads as the same chart.

Execution ids are not assumed fresh, because the store rejects duplicates; the automaton of `Interactive.dfy` records the
ids used up and refuses them likewise.

The protocol state carries history that no step reads: the owner of each running instance, the execution at which each
instance last parked, who wrote a final status, which hook calls a crash lost, the payload each instance was started
with, and in each driver the row it claimed and the states it visited. Properties that matter to a user are stated on
the tables; the history serves the invariant.

## Findings

- `RECOVERY.md:164-165` and the checklist at `RECOVERY.md:194-195` hope that concurrent recovery passes do not act
  twice. They can: after the legal run `DEAD`, `ConcurrentPassesNotifyTwice` lets a second pass overlap the first, and
  the two fire one instance's completion hook twice.
- A lease that expires while its driver lives is not detected either. After the legal run `QUIET` recovery marks an
  instance failed under a live driver. `HastyRecoveryUndoesFinal` has the driver then park it; `HastySave` has it save, and
  the instance is running with no execution open, where no scan can find it.
- These writes are all made under an execution that is closed already, and for every write that lookup is the exact
  condition. Where the tables show exclusive ownership, a closing write overwrites a running row and keeps ownership, and a
  save leaves the instance running under its own execution alone, if and only if the write's execution is still open
  (`CloseSafeIffOpen`, `SaveSafeIffOpen`). At a close the count of hook calls stays right if and only if the row
  overwritten was not final (`PassCloseSafeIffOpen`, `DriverCloseSafeIffOpen`). The store could look the execution up
  under its lock.
- `DESIGN.md:85` and `DESIGN.md:98` describe the version as an optimistic lock. The store never compares it. Under the
  assumptions above the comparison would always succeed (`NoLostUpdate`).
- The comment at `pkg/engine/engine.go:392-395` says the hook fires exactly once. `CrashLosesNotice` is a legal run that
  loses the call for good. Over a run, each final instance's call is made or still coming if and only if no crash fell
  between a closing write and its hook (`HookExactlyOnce`).
- An invalid-input error on a later step of a resume still sends `SignalInstance` down the release path; the instance
  has failed by then and the release does nothing (`ReleaseUndoesOnlyFirstStep`).
- `RECOVERY.md:119-123` expects a caller's retry after a crash to succeed. It does if and only if the crashed delivery
  carried no delivery id (`RetryAfterRollback`): the closed record keeps the id, and the store refuses it as a duplicate.
  The same holds after a rejection, which `SignalInstance` documents as retriable (`RetryAfterRejection`).
  `RetryRefusedAfterRollback` and `RetryRefusedAfterRejection` are legal runs that end in the refusal.
- Rollback is not an exact undo, though a rejection is. The row is the claimed one but for the write stamps, the payload,
  which keeps what the crashed drive saved, and the wake-up deadline, which comes back if and only if there was none
  (`RollbackUndoes`). `RetryRefusedAfterRollback` is also a legal run that loses a deadline.

## Model

| member | source | states |
|---|---|---|
| Charts.FindMeansFirst | pkg/chart/chart.go:55-58 | a name is found exactly when some state has it, and what is found is the first such state |
| Charts.ResolveMeansFirst | pkg/engine/engine.go:371-378 | an event resolves exactly when some transition lists it, and to the target of the first that does |
| Charts.ResolveTransition | pkg/engine/engine.go:371-378 | the loop computes first-match resolution |
| Charts.Chart.State | pkg/chart/chart.go:55-58 | lookup through the index of a valid chart is a linear search |
| Charts.Chart.Validate | pkg/chart/chart.go:61-122 | no error exactly when the declarative rules hold, and then the index holds exactly the state names; a reported error is true of the chart |
| Charts.Chart.CheckStates | pkg/chart/chart.go:82-120 | the second pass succeeds exactly when every state obeys its rules |
| Charts.Chart.BuildIndex | pkg/chart/chart.go:68-78 | the first pass succeeds exactly when names are present and distinct |
| Charts.CheckState | pkg/chart/chart.go:82-120 | the second pass over one state decides that state's rules, and explains a refusal |
| Charts.SignalRoutes | pkg/chart/chart.go:105-119 | in a valid chart every declared signal is non-empty and resolves |
| Charts.ResolvedIsEdge | pkg/chart/chart.go:96-104 | taking a resolved transition follows an edge and stays among the defined states |
| Charts.FaultlessIffWellFormed | pkg/chart/chart.go:61-122 | the rules and the faults the validator may report are one and the same: a chart obeys the rules exactly when no fault is true of it |
| Memories.Memory.Save | pkg/store/store.go:115-133 | overwrites the row with a stamped copy of the caller's, stamps the caller, renews the lease; no version check |
| Memories.Memory.Load | pkg/store/store.go:135-143 | a new object equal to the stored row, or none |
| Memories.Memory.SeenBefore | pkg/store/store.go:160-166 | some execution carries this delivery id |
| Memories.Memory.Claim | pkg/store/store.go:147-177 | not found exactly if the id is not stored; not waiting exactly if it is stored but not suspended, or not on this signal; duplicate execution or delivery exactly if neither of those and the id is taken; a refusal changes nothing, and admission moves the row to running and adds the execution, nothing else |
| Memories.Memory.StartInstance | pkg/store/store.go:197-227 | duplicate instance, execution or delivery exactly if that id is taken, in that order; a refusal changes nothing, and admission adds the row at version 1 and the execution |
| Memories.Memory.CloseExecution | pkg/store/store.go:229-258 | overwrites the row and sets every field of the closed record: outcome, time, the cause if there is one, the place of a park and no other; no other record changes |
| Memories.Memory.FindCrashedExecutions | pkg/store/store.go:260-273 | open executions with an expired lease, once each: all of them, or as many as the limit allows |
| Memories.Memory.FindLastCheckpoint | pkg/store/store.go:285-300 | a suspended execution of the instance that no other started after, or none exactly if it never parked |
| Steps.DecideOK | pkg/engine/engine.go:277-365 | whatever an executor answers, one loop iteration leaves the owning driver's copy as the invariant wants it |
| Steps.NextKeeps | pkg/engine/engine.go:96-465 | every legal action of any driver or recovery pass, crashes included, keeps the invariant |
| Steps.RunKeeps | pkg/engine/engine.go:96-465 | every state of every legal run satisfies the invariant |
| Steps.LastParkIsUnique | pkg/store/store.go:285-300 | the checkpoint search has exactly one possible answer, the instance's last park |
| Guarantees.ReachedIsRun | pkg/engine/engine.go:96-465 | the reachable states are exactly those some legal run from the initial state ends in |
| Guarantees.RunsJoin | pkg/engine/engine.go:96-465 | a legal run from where another ends makes one legal run |
| Guarantees.ExclusiveOwnership | pkg/store/store.go:147-258 | in every reachable state a running instance has exactly one open execution, any other has none |
| Guarantees.LeaseTracksWrites | pkg/store/store.go:126-131 | an execution is expired exactly when it is open and its running instance was last written before the threshold |
| Guarantees.DrivesAlternate | pkg/store/store.go:147-177 | drives begun equal rests reached, plus one while running: exactly one claim succeeds between consecutive parks |
| Writes.NoLostUpdate | pkg/store/store.go:115-133 | at every write of every run the stored version is the writer's, so the blind overwrite is a successful compare-and-swap |
| Writes.VersionCountsWrites | pkg/store/store.go:123-124 | the version is the number of steps that changed the instance |
| Writes.FinalMeansFinal | pkg/engine/engine.go:283-291 | over any continuation of a run, final rows, closed executions and pinned charts never change |
| Writes.LeadsPreserves | pkg/engine/engine.go:283-291 | the same between any reachable state and any state it leads to |
| Writes.AtMostOnceDelivery | pkg/store/store.go:160-166 | a delivery id starts at most one drive over a whole run, and no two executions share one |
| Checkpoints.SuspendedAgreesWithCheckpoint | pkg/store/store.go:246-249 | a suspended instance has a checkpoint, and any the search may return recorded its present state and wake set |
| Checkpoints.RunningAgreesWithCheckpoint | pkg/store/store.go:285-300 | a running instance's checkpoint is where it was claimed, and is missing exactly for a Start drive |
| Checkpoints.WakeSetsLive | pkg/engine/engine.go:325-341 | a suspended instance waits on exactly its state's signals, has a signal or a deadline, and each signal routes |
| Checkpoints.RoutedSignalMoves | pkg/engine/engine.go:302-305 | a resume is never a cold entry, and an executor that routes on the signal never meets "no transition" |
| Checkpoints.RollbackIsWakeable | pkg/engine/engine.go:448-454 | after rollback the signal that began the crashed drive is waited for again, and is admitted exactly under new ids |
| Checkpoints.RollbackUndoes | pkg/engine/engine.go:448-454 | rollback restores the claimed row but for payload, version, update time and deadline; the deadline is as it was exactly if there was none |
| Checkpoints.RetryAfterRollback | pkg/store/store.go:160-166 | retrying the crashed delivery under a new execution id succeeds exactly if it carried no delivery id, else it is refused as a duplicate |
| Checkpoints.RetryAfterRejection | pkg/store/store.go:160-166 | after a release the signal is admitted again exactly under a new delivery id, so not under its own |
| Checkpoints.RejectionIsExactUndo | pkg/engine/engine.go:247-261 | the release restores the claimed row in every field but version and update time |
| Checkpoints.ReleaseUndoesOnlyFirstStep | pkg/engine/engine.go:231-261 | the release acts exactly when the invalid-input error came on the first step; otherwise the instance stays failed |
| Checkpoints.WalksStayOnChart | pkg/engine/engine.go:353-362 | stored states and recorded parks are reachable in the pinned valid chart, and no execution failed with "state not found" |
| Checkpoints.StateAlwaysFound | pkg/engine/engine.go:278-281 | the lookup at the top of the loop always succeeds |
| Notices.HookAtMostOnce | pkg/engine/engine.go:382-400 | the hook fires at most once, and has fired exactly when the instance is final and its call is neither pending nor lost |
| Notices.HookExactlyOnce | pkg/engine/engine.go:382-400 | over a run, every final instance's call is made once or is its closer's next step, exactly if no crash fell between a closing write and its hook |
| Notices.LostForGood | pkg/engine/engine.go:382-400 | a lost call is never made, however the run goes on |
| Notices.ReachedShowsNotices | pkg/engine/engine.go:382-400 | calls made, owed by some driver or pass, and lost come to one for a final instance and none for any other |
| Payloads.OnlyStateKeysChange | pkg/engine/engine.go:226-231 | between any two moments of a run, payload keys that are not state names keep their values |
| Payloads.DriveTouchesOnlyVisited | pkg/engine/engine.go:331-351 | a drive's writes differ from what it set out with only at states it has been in |
| Payloads.ShownPayload | pkg/engine/engine.go:298-305 | in every reachable state an executor about to be called is shown, on the first step of a resume, the signal, its data, and the claimed row's payload with that data under its state; on any other call neither, and the stored payload |
| Payloads.OutputIsStored | pkg/engine/engine.go:331-351 | in every reachable state, after an executor returns, the row stored next has the output under the state's name and the working copy's entries elsewhere, unless the output is empty or the park was unwakeable |
| Refinement.ShowsView | pkg/store/store.go:285-300 | the tables of a reachable state show exactly one abstract state of each instance |
| Refinement.StepRefines | pkg/engine/engine.go:275-367 | each step leaves an instance's view alone, unless it starts the instance, is its driver's closing write, or marks it failed in recovery; then it makes one move: park to park, to done or to failed, along a walk |
| Refinement.RunRefines | pkg/engine/engine.go:404-465 | what the tables show before and after each step of a run is equal, or one move apart by one of those three steps; saves, claims, releases, rollbacks and crashes never move |
| Recovery.CrashedIsStillRunning | pkg/engine/engine.go:415-427 | the instance a pass loads exists and is running: the not-running branch is never taken |
| Recovery.RecoverOne | pkg/engine/engine.go:412-462 | one round recovers exactly the execution at hand, counts it, and leaves the rest of the pass's list as it was |
| Recovery.PassIsTotalAndFramed | pkg/engine/engine.go:404-465 | alone, a pass closes every expired execution as crashed, with the reason that fits, sets each instance right, touches nothing else, counts them, and leaves nothing to find |
| Recovery.PassIsRun | pkg/engine/engine.go:404-465 | a whole pass that begins as a legal scan does is a legal run of the protocol |
| Recovery.CanAlwaysRest | pkg/engine/engine.go:404-465 | from every reachable state some legal run, ending with one recovery pass, leads to a state in which no instance is running |
| Hazards.CloseSafeIffOpen | pkg/store/store.go:229-258 | where ownership is shown, a closing write overwrites a running row and keeps ownership exactly if the execution it closes is open |
| Hazards.SaveSafeIffOpen | pkg/store/store.go:115-133 | where ownership is shown, a save leaves the instance running under its own execution alone exactly if that execution is open, and the count of open ones right exactly if the row was running |
| Hazards.PassCloseSafeIffOpen | pkg/engine/engine.go:435-454 | at a pass's close the hook count stays right exactly if the row was not final; with ownership and a running row, exactly if the execution is open |
| Hazards.DriverCloseSafeIffOpen | pkg/engine/engine.go:283-291 | the same at a driver's close |
| Hazards.HastyRecoveryUndoesFinal | pkg/engine/engine.go:404-465 | after a legal run, recovery at a past threshold over a live driver sets a final status that the driver overwrites with a park, closing an execution already closed |
| Hazards.HastySave | pkg/engine/engine.go:362-364 | after the same legal run and recovery the live driver's save leaves a failed instance running with no open execution, out of every scan's reach |
| Hazards.ConcurrentPassesNotifyTwice | pkg/engine/engine.go:404-465 | after a legal run, a second pass over one dead drive makes its hook fire twice, the second close being of a closed execution with a stale version |
| Hazards.CrashLosesNotice | pkg/engine/engine.go:283-291 | a legal run leaves an instance done whose hook never fires in any continuation |
| Refusals.RetryRefusedAfterRollback | pkg/engine/engine.go:448-454 | a legal run that parks with a deadline, is claimed under a delivery id, dies and is rolled back: the deadline is gone, and the retry is refused under that id and admitted under another |
| Refusals.RetryRefusedAfterRejection | pkg/store/store.go:160-166 | a legal run ending in a rejection after which the same delivery id is refused and another admitted |
| Drives.LoopIsRun | pkg/engine/engine.go:275-367 | a drive run to its end on its own is a legal run of the protocol |
| Drives.StartIsRun | pkg/engine/engine.go:96-127 | so is a whole call of Start |
| Drives.SignalIsRun | pkg/engine/engine.go:194-241 | so is a whole signal call with its release |
| Drives.SignalRunKeeps | pkg/engine/engine.go:194-241 | hence it keeps the invariant |
| Drives.MoreFuel | pkg/engine/engine.go:276-277 | an allowance of executor calls that suffices changes nothing by being larger |
| Termination.WalkIsShort | pkg/engine/engine.go:276-277 | if every cycle has a state that stops cold, a walk through states that do not is no longer than the chart |
| Termination.DriveHalts | pkg/engine/engine.go:276-365 | then a drive halts within the number of states plus one executor calls, whatever the executors return |
| Termination.AllowanceIsImmaterial | pkg/engine/engine.go:276-277 | under that condition every allowance from that bound up gives the same drive |
| Termination.CallsWithinFuel | pkg/engine/engine.go:276-365 | a drive makes no more executor calls than it is allowed |
| Builtin.StringsMeaning | pkg/builtin/builtin.go:255-267 | the coerced list holds exactly the non-empty strings of the input |
| Builtin.StringsInOrder | pkg/builtin/builtin.go:255-267 | coercion splits over concatenation and maps one item to itself or nothing, so order and repetition are kept |
| Builtin.CoerceStrings | pkg/builtin/builtin.go:255-267 | the loop computes that list |
| Builtin.FirstMissingMeaning | pkg/builtin/builtin.go:75-79 | a field is reported exactly when some required one is absent, and it is the first that is |
| Builtin.RequiredMeans | pkg/builtin/builtin.go:75 | the required fields are exactly the non-empty strings of the list under "require", and none if that entry is missing or no list |
| Builtin.WaitersOnResume | pkg/builtin/builtin.go:147-154 | both waiting executors answer a resume alike: invalid input exactly if a non-empty string listed under "require" is not in the data, else the signal |
| Builtin.WaitersOnEntry | pkg/builtin/builtin.go:155-166 | on a cold entry one parks; the other fails on an author's mistake, parks with the response if the exchange succeeded, and else takes the configured error event, or "error" |
| Builtin.ExecuteInteractive | pkg/builtin/builtin.go:71-81 | parks on a cold entry; on a resume it rejects exactly if a non-empty string listed under "require" is not in the data, else routes on the signal |
| Builtin.ResumedWaiterRoutes | pkg/builtin/builtin.go:147-155 | in every reachable state a resumed driver at either executor is released exactly if a non-empty string listed under "require" is not in the data, else it moves by the signal's first transition; it never fails |
| InteractiveCharts.HasRequired | pkg/builtin/builtin.go:75-79 | which data the automaton accepts: any that holds every non-empty string listed under "require" |
| InteractiveCharts.StartRests | pkg/engine/engine.go:96-127 | starting an interactive chart parks it at its initial state, or completes it there; under a taken id nothing changes |
| InteractiveCharts.OneSignal | pkg/engine/engine.go:194-241 | one signal call, with any ids and any allowance from two executor calls up, is one step of the automaton; accepted data becomes the payload's entry for the state left and no other entry changes; an unclaimed signal changes nothing, a rejected one gives the claim back |
| InteractiveCharts.SignalsFold | pkg/builtin/builtin.go:71-81 | after any sequence of calls, with any ids and any allowance from two executor calls each up, the instance stands at the fold of the accepted ones, suspended or done, never failed |
| InteractiveCharts.SignalFolds | pkg/engine/engine.go:194-241 | a call takes every fold the instance stands at one element further |
| InteractiveCharts.StartFolds | pkg/engine/engine.go:96-127 | a start puts the instance where the empty fold begins |
| Engines.Engine.Launch | pkg/engine/engine.go:104-121 | stores the new instance and its execution, both given field by field, or changes nothing; refused exactly if an id is taken |
| Engines.Engine.Promises | pkg/engine/engine.go:96-465 | of the engine's own tables and hook calls between calls: one open execution exactly if running, at most one hook call and only if final, checkpoint equal to a suspended row |
| Engines.Engine.StepWith | pkg/engine/engine.go:275-367 | the loop, mutating the instance and calling the store, does what the protocol's steps do and reports how it ended; the caller's copy is the stored row, the cause reported is the one on record, a rejection has written nothing, and a death leaves the row running |
| Engines.Engine.StopUncalled | pkg/engine/engine.go:278-296 | an unknown state fails with that cause, a terminal one completes, an unregistered executor fails with that cause |
| Engines.Engine.Call | pkg/engine/engine.go:298-307 | the executor is called once, on an event with the instance's payload as it is then, the state's configuration, and the signal and its data on the first step of a resume, neither otherwise |
| Engines.Engine.TakeResult | pkg/engine/engine.go:320-365 | parks with the state's signals and the deadline, fails for want of something to wake it or of a transition, or moves to the first match; the output is the entry under the state's name, and the cause reported is the one on record |
| Engines.Engine.MoveOn | pkg/engine/engine.go:344-366 | the output is filed, then the first transition on the event is taken and saved; without one the drive fails for that reason |
| Engines.Engine.TakeAnswer | pkg/engine/engine.go:307-365 | an error fails the drive with the executor's own text, except that invalid input on the first step of a resume rejects it with nothing written; a result is taken as above |
| Engines.Engine.Fail | pkg/engine/engine.go:382-390 | marks failed, closes with the cause on record, notifies |
| Engines.Engine.Start | pkg/engine/engine.go:96-127 | refused exactly if an id is taken, changing nothing; else the protocol's start followed by the drive, ending in a reachable state, rewriting nothing final, and beginning the fold of an interactive chart; what is reported is how the drive ended, and the row and record agree with it |
| Engines.Engine.Wake | pkg/engine/engine.go:212-231 | refuses with the same error for the same reasons as the claim; else claims, and the working copy alone has the data under its state |
| Engines.Engine.Resumed | pkg/engine/engine.go:219-239 | the drive of a claimed instance, with the release on invalid input; a rejection leaves the row as it was claimed but for version and update time |
| Engines.Engine.SignalInstance | pkg/engine/engine.go:194-241 | turned away with each error exactly for its own reason, changing nothing; else claim, drive, and release on invalid input, ending in a reachable state, rewriting nothing final, and taking the fold of an interactive chart one call on; an instance is returned exactly when the drive came to rest, and is the stored row; a rejection restores the row but for version and update time; a failure's cause is on record |
| Engines.Engine.ReleaseToSuspended | pkg/engine/engine.go:247-261 | a row still running is written back suspended and otherwise the same; one that has moved on is left alone |
| Engines.Engine.Judge | pkg/engine/engine.go:429-452 | sets the loaded instance to its checkpoint, or to failed |
| Engines.Engine.RecoverHead | pkg/engine/engine.go:412-462 | one round of the recovery loop, all branches |
| Engines.Engine.RecoverEach | pkg/engine/engine.go:411-463 | the loop over what the scan found: one round each, and as many counted |
| Engines.Engine.RecoverStale | pkg/engine/engine.go:404-465 | every execution open and unheard of for longer than the lease ends closed as crashed, with the reason, and its instance rolled back or failed and notified; no other row, record or notice changes; returns how many there were, and leaves none |
| Clones.DeepClone | pkg/engine/engine.go:484-501 | on acyclic values: ends, yields an equal value, all of new objects, none leading out of the copy |
| Clones.CloneMap | pkg/engine/engine.go:486-491 | the map case |
| Clones.CloneSlice | pkg/engine/engine.go:492-497 | the slice case |
| Clones.ClonePayload | pkg/engine/engine.go:477-482 | nothing that can be reached from the copy existed before; a missing payload is shown as empty |
| Clones.PathStaysInside | pkg/engine/engine.go:484-501 | no path from a value leaves the objects it is laid out in |
| Clones.ClosedConfines | pkg/engine/engine.go:473-476 | no path leads out of a closed set of objects |
| Clones.Build | pkg/engine/engine.go:473-476 | what a writer makes itself is made of new objects, none leading elsewhere |
| Clones.ShowAndScribble | pkg/engine/engine.go:298-301 | any sequence of writes through the copy, of values found or newly made, leaves the instance payload as it was |

## Left out

- The Postgres store: its behaviour lies in SQL and transaction isolation; the in-process store is taken as the contract.
- Network calls (`HTTPCall`, `performHTTP`): to the protocol they are arbitrary executors. Of `RegisterAndWait` the branches are modelled and the exchange is a parameter.
- YAML and JSON codecs: pinning stores the chart value, and reloading gives the same chart; a stored chart that fails to decode is not modelled.
- `Engine.Step` as a public entry point: it runs without an execution record and takes no ownership.
- Guards, macros, compiler, outbox and scheduler: described in `DESIGN.md`, not implemented.
- Logging, options, contexts, random identifiers, `Instance`, `LoadExecution`, `FindDue` and the registry's own methods: plumbing, or simple lookups.
- Sharing between nested maps: the store copies payload maps one level deep and signal data is filed uncopied (`pkg/engine/engine.go:230`). So a caller that keeps writing to nested maps after a call could change stored data, and an executor that writes to its event's data map, which is that same map (`pkg/engine/engine.go:304`), changes the instance payload. Payloads are values everywhere but in `Clone.dfy`, which treats the payload an executor is shown.
- In `Clone.dfy`, maps and slices of other element types, which the program carries by reference, are not modelled.
- Store methods are each one atomic step, as they hold the store's lock; errors the in-process store never returns are not modelled, nor is the branch of `fail` that wraps a failed write.
- Memories.Memory.Claim: takes one clock reading where the program takes three in a row under the lock, so the times it stamps are equal rather than moments apart.
- Guarantees.LeaseTracksWrites: relies on that single reading; with three the lease of a claim would be moments younger than the row.
- Execution records are values rather than objects with identity.
- Error texts are constructors; the cause of an executor error keeps its text and whether it wraps the invalid-input error.
- The class `Engine` runs one call at a time, and its process can die at executor calls only (`fuel` is how many it survives). Death at any other point, and interleaving with other processes, are covered by the protocol.
- Engines.Engine.StepWith: bounded by that fuel, because the loop need not end on an arbitrary chart; `DriveHalts` gives the bound that suffices and `AllowanceIsImmaterial` says any larger one changes nothing.
