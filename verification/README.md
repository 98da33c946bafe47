# Verification of evix

evix evaluates a Nix expression in parallel. A coordinator keeps a first-in,
first-out queue of attribute paths and hands them to a pool of local, forked and
remote workers; a worker answers with a derivation, an attribute set to expand, or
an error. A long-lived session keeps the derivations of the last complete
evaluation as a warm graph for queries, diffs and watching, and a daemon caches
sessions and replays their streams. This project models those parts in Dafny and
proves what they promise, for all value graphs, pools, schedules and inputs.

Check everything with `dafny verify dfyconfig.toml`.

## How the project is laid out

| file | what it covers |
|---|---|
| `Types.dfy` | attribute paths, events, JSON values |
| `Eval.dfy` | what one worker answers for one path, and the simple recursive walk that serves as the reference |
| `Pool.dfy` | the worker pool a configuration yields, and which systems it owns |
| `Coordinator.dfy` | the scheduler and the coordinator's loop: classes that update their fields, each proved equal to a step function |
| `Worklist.dfy` | the conservation law behind the traversal: log plus what is still owed is the walk |
| `Distributed.dfy`, `Runs.dfy` | coordinator and workers as a step system, and the invariant of all its runs |
| `Failures.dfy`, `Endings.dfy`, `Cancellation.dfy` | where failure reports come from, why runs end, and what a cancel does to one |
| `Guarantees.dfy`, `Progress.dfy`, `Loop.dfy` | the main results: same output for every pool and schedule, completeness under failures, ownership, termination, no deadlock, first-in first-out dispatch, and that every run of the step system is one of the program's loop |
| `Exchange.dfy` | the conversation of a worker task with its worker, over queues, with restarts, relays and late replies |
| `Composed.dfy` | coordinator, worker tasks and their connections together, shown to refine the step system |
| `Graphs.dfy`, `WarmGraph.dfy` | recording a run, diffs as patches, and both traced back to the evaluator |
| `Sessions.dfy`, `Lifecycle.dfy` | the warm state and its operations; the session under concurrent callers |
| `Registry.dfy`, `Replays.dfy` | the daemon's bounded session registry and its replays |
| `Glob.dfy` | the wildcard matcher and derivation filters |
| `Forks.dfy`, `ForkEnv.dfy` | forking warm workers, their slots and their daemon connections |
| `JsonEvents.dfy`, `Lines.dfy` | the flat JSON form of events; bounded lines and the stderr tail |

Objects that the program updates in place are classes here (`Scheduler`,
`Evaluation`, `SessionRegistry`, `DaemonState`, `EvalAccumulator`, `WarmState`,
`Forker`, `FdTable`, `BufReader`, `StderrTail`), and its loops are loops. Their
methods are proved against functions, and the lemmas are about those functions.
Concurrent behaviour is a state machine whose actions are the program's atomic
steps, and the theorems are about every legal sequence of actions.

Every lemma is marked `{:induction false}`: a proof by induction shows its recursive
call, and none leans on induction the verifier found by itself.

What the outside world decides enters as parameters: the Nix evaluator as functions
about which only distinct attribute names are assumed, clocks as predicates that say
whether a time has come, the kernel as functions from the open descriptors to the
outcome of a call, and cancellation, crashes, timeouts and full or closed channels as
actions that may happen at any time.

## What the code does that its documentation or tests would not lead one to expect

- A diff does not invalidate a replay in the same step in which it updates the warm
  graph. In between, the old replay is still served although the graph may have moved
  (`Replays.ReplayLagsBehindDiff`). Outside that window replay and graph agree
  (`Replays.ReplayMatchesGraph`); inside it they differ exactly if the last graph an
  unsettled diff published differs from the recorded one
  (`Replays.ReplayLagsOnlyInsideDiff`).
- Inserting a key that is already cached into a full registry evicts another session
  although no room is needed; `Registry.InsertDisplaces` gives the exact condition.
- A `watch` call outside a runtime that finds the warm state locked stores no error.
  If it was the one to claim the initial evaluation, a later watcher goes to sleep with
  no outcome to come (`Lifecycle.WatcherCanBeAbandoned`), and only a further cancel or
  another failing `watch` call can notify it (`Lifecycle.AbandonedStays`);
  `Lifecycle.QuietSessionIsTold` shows that there is no other way to be left without an
  outcome.
- A cancel does not reach a watcher that has checked the flag and not yet registered,
  unless there is an outcome to see; it reaches every other one
  (`Lifecycle.CancelReachesWatcher`, `Lifecycle.NotificationAfterCancel`). A watcher it
  misses is woken by the end of the evaluation under way, if there is one
  (`Lifecycle.CancelCanSlip`); without one it sleeps on, cancelled as it is
  (`Lifecycle.CancelledWatcherCanBeAbandoned`).
- After a fork, only the first turn of the loop that replaces the daemon connections
  checks whom it reached. The replaced descriptors lead to the daemon if and only if
  every turn but the last reached it (`Forks.FdTable.ReplaceDaemonConnections`), and a
  store that leads elsewhere in between breaks that (`Forks.StrayOpening`).
- `diff_once` compares with a snapshot taken before its evaluation, so two of them can
  overlap. The later diff is right for the graph it overwrites if and only if nothing
  it does not mention has moved since the snapshot (`Graphs.PatchOnMovedGraph`).
- A diff compares derivation files only, so patching the previous graph gives the
  current graph itself just when nothing else changed (`Graphs.PatchExact`).
- The text form of an empty list of fork slots cannot be read back; the guard at the
  spawn site is what makes the trip safe (`ForkEnv.EnvValueReadable`).

## Model

| member | source | states |
|---|---|---|
| `Eval.Navigate` | crates/evix/src/eval.rs:141-162 | the loop from the root reaches the value the path denotes, auto-calling after every step, and stops at the first failure |
| `Eval.NavigatedMore` | crates/evix/src/eval.rs:147-161 | the value one name further down is the attribute of the value above it, auto-called; only at the root is the value itself auto-called, and a failure above is a failure below |
| `Eval.WithoutKeepsOrder` | crates/evix/src/eval.rs:180-184 | the names that are left keep their order |
| `Eval.Without` | crates/evix/src/eval.rs:180-184 | child names are exactly those of the set but the recursion marker, and stay distinct |
| `Eval.EvaluatorWellBehaved` | crates/evix/src/eval.rs:67-139 | for any value graph, cyclic ones included, an answer carries the path that was asked, nothing is listed at depth 64 or below, children are distinct, and no answer is fatal |
| `Eval.ExpandsInto` | crates/evix/src/eval.rs:112-188 | at a set that is no derivation, less than 64 deep, the answer lists a name if and only if it is a key, not the marker, and expansion is forced, the set is the root, or its flag is true |
| `Eval.OnlySetsExpand` | crates/evix/src/eval.rs:90-139 | nothing else lists any name |
| `Eval.RootIsExpanded` | crates/evix/src/eval.rs:173-178 | every name of the root but the marker is reached, whatever the flags |
| `Eval.SetIsExpanded` | crates/evix/src/eval.rs:173-178 | below the root a name of a reached set is reached if and only if expansion is forced or the set asks for it |
| `Eval.ReportsJob` | crates/evix/src/eval.rs:98-111 | the answer is a derivation if and only if there is one and its job can be read; each field of the event is that field of the job, under the path asked |
| `Eval.ReportsError` | crates/evix/src/eval.rs:78-138 | a failed navigation, query or job, or a set 64 deep, is reported as a non-fatal error with its own text under the path joined by dots |
| `Eval.ReportsOtherValue` | crates/evix/src/eval.rs:90-96 | any other value is reported as a set without names |
| `Eval.WalkIsReachability` | crates/evix/src/eval.rs:98-129 | the reference walk visits exactly the reachable paths, each once |
| `Eval.ReachableDepth` | crates/evix/src/eval.rs:19 | no reachable path is longer than 64, whatever cycles the graph has |
| `Pool.WorkerSpecs` | crates/evix/src/async_master.rs:235-284 | every configuration yields at least one worker, ids are positions, the first worker is not forked, and locals, forks and remotes come in the documented order; no local worker if none is asked for and a remote offers one, one if none is asked for and none offered, and otherwise as many as asked for |
| `Pool.CountRemoteWorkers` | crates/evix/src/async_master.rs:236 | the number of remote workers is the number of worker slots the remotes list |
| `Pool.PrepareForks` | crates/evix/src/async_master.rs:243-261 | with two or more local workers the first keeps one slot for each of the others; otherwise nobody forks |
| `Pool.ForkSlotsMatch` | crates/evix/src/async_master.rs:243-272 | the slots the forked workers expect are distinct and are exactly those their parent holds |
| `Pool.AddRemote` | crates/evix/src/async_master.rs:274-282 | a remote adds as many workers as it offers, numbered on from the pool, labelled with endpoint and index |
| `Pool.DispositionIsOwnership` | crates/evix/src/async_master.rs:639-672 | whoever evaluated it, a derivation is emitted if and only if there is a local worker, or a remote that lists its system or lists none |
| `Pool.CoveredMeans` | crates/evix/src/async_master.rs:662-672 | a system is owned under exactly that condition on the configuration |
| `Coordinator.Scheduler.constructor` | crates/evix/src/async_master.rs:143-147 | a run starts with the root path queued and nothing in flight |
| `Coordinator.Scheduler.NextFor` | crates/evix/src/async_master.rs:304-320 | work is handed out from the front exactly when there is some and no error; after an error nothing is, ever; done exactly when nothing is queued or in flight |
| `Coordinator.Scheduler.Complete` | crates/evix/src/async_master.rs:322-382 | an attribute set's children are queued in order at the back, a fatal error or an unowned system is remembered, and only the unowned derivation is withheld |
| `Coordinator.UnforkedIds` | crates/evix/src/async_master.rs:397-399 | at first exactly the workers that are not forked are idle, each once |
| `Coordinator.Evaluation.constructor` | crates/evix/src/async_master.rs:385-400 | the loop starts with the root queued and every unforked worker idle |
| `Coordinator.Evaluation.Offer` | crates/evix/src/async_master.rs:466-495 | one offer of work to the longest-idle worker is the step `DispatchOne` of the step system |
| `Coordinator.Evaluation.DispatchAvailable` | crates/evix/src/async_master.rs:458-499 | the dispatch loop is the iteration of that step over the workers that were idle when it began |
| `Coordinator.Evaluation.Handle` | crates/evix/src/async_master.rs:423-449 | handling one message is the step `Receive`: a failed item becomes a non-fatal error event, the event is emitted before its error ends the run |
| `Coordinator.Evaluation.Coordinate` | crates/evix/src/async_master.rs:401-451 | the whole loop is the iteration of check, dispatch and receive over whatever the outside world sends |
| `Coordinator.VerdictMeans` | crates/evix/src/async_master.rs:333-382 | every event is passed on but an unowned derivation; that and a fatal error end the run, each for its own reason |
| `Coordinator.ReplyReceived` | crates/evix/src/async_master.rs:428-449 | a reply frees its worker, queues the listed names in order behind everything queued, appends its event, which for a failure carries the path, its display name, the worker's name and the error, and ends the run for want of an owner, a failing sink or a fatal error, in that order of precedence |
| `Coordinator.OtherReceived` | crates/evix/src/async_master.rs:419-430 | any other message makes a forked worker idle or ends the run, as cancelled, with the error of a task or for want of workers, and leaves queue and log alone |
| `Coordinator.OfferMeans` | crates/evix/src/async_master.rs:463-498 | the longest-idle worker gets the oldest item, or is found gone, or goes behind the others, or the run is over; the exact condition of each |
| `Coordinator.WaitingMeans` | crates/evix/src/async_master.rs:412-417 | before waiting, the loop ends exactly if nothing is queued or in flight, or nothing is in flight although every worker is idle |
| `Loop.DispatchIsFifo` | crates/evix/src/async_master.rs:463-498 | one dispatch pass gives the oldest items to the longest-idle workers, as many as there are of both, and leaves the other workers in their order |
| `Loop.DispatchLoopIsSteps` | crates/evix/src/async_master.rs:458-499 | one dispatch pass is a legal sequence of steps of the distributed system and ends in the same state |
| `Loop.EveryRunIsPlay` | crates/evix/src/async_master.rs:401-451 | whatever the interleaving with the workers, a run of the step system takes the coordinator to a state that the program's own loop comes to on some sequence of outside events |
| `Worklist.AnswerConserves` | crates/evix/src/async_master.rs:333-344 | completing an item moves exactly one event from what is owed to the log |
| `Worklist.FinishDecreases` | crates/evix/src/async_master.rs:333-344 | whatever a worker reports, every completion strictly lowers what is owed |
| `Worklist.FinishCoherent` | crates/evix/src/async_master.rs:333-344 | completing an item keeps discovered paths unique, children of reported sets discovered, and parents reported before their children |
| `Distributed.SendNeverBlocks` | crates/evix/src/async_master.rs:477-484 | a worker that is offered work holds nothing and its channel of capacity one is empty, so the send cannot block |
| `Distributed.EndDispatchNeverStalls` | crates/evix/src/async_master.rs:412-417 | after dispatching, the run is over or work is in flight; the stall error is unreachable |
| `Distributed.SendKeeps` | crates/evix/src/async_master.rs:470-484 | sending work keeps the channel discipline and the bag of discovered paths |
| `Distributed.WorkerActionKeeps` | crates/evix/src/async_master.rs:520-594 | no step of a worker task, failures, restarts and exits included, breaks the channel discipline |
| `Distributed.ReplyRefines` | crates/evix/src/async_master.rs:432-449 | crediting a reply is completing its item in the ledger |
| `Runs.BookkeepingStep` | crates/evix/src/async_master.rs:401-426 | every other coordinator step leaves the log and the discovered paths alone and never stalls or finds all workers gone |
| `Runs.RunGood` | crates/evix/src/async_master.rs:397-441 | in every state of every run: discovered paths are the disjoint union of queued, in flight and reported; `active` counts the busy workers; each worker is idle, busy, or forked and not yet announced; nothing is reported twice |
| `Guarantees.CompletedRunIsWalk` | crates/evix/src/async_master.rs:385-451 | a failure-free run that completes has emitted exactly the events of the simple recursive walk, each once |
| `Guarantees.TopologyInvariance` | crates/evix/src/async_master/tests.rs:518-545 | any two pools and any two schedules emit the same events |
| `Guarantees.CompletedRunIsComplete` | crates/evix/src/async_master.rs:333-344 | under any failures, a completed run has one event for every discovered path: the evaluator's answer, or the report of an item that failed there in this run, with the worker that had it and its error; every listed child has one, later; every reported path was listed, earlier |
| `Guarantees.QueuedPathsBounded` | crates/evix/src/eval.rs:112-129 | only reachable paths of length at most 64 are ever queued |
| `Guarantees.EmittedGenuine` | crates/evix/src/async_master.rs:435-445 | however a run ends, each event emitted is the evaluator's answer for its path or reports a failure that happened there in the run |
| `Failures.EmittedExplained` | crates/evix/src/async_master.rs:682-693 | a failure report carries the path, its display name, "worker ", the name of the worker, " failed: " and the very error that worker failed with on that item in the run |
| `Endings.RunEndsForAReason` | crates/evix/src/async_master.rs:401-451 | however a run ends, the reason it gives is real: a cancel was requested; the path named is reachable and no worker owns its system; the sink refused an event; the worker named is gone; a worker task ended with that error; or the evaluator reports that fatal error at a reachable path. It never stalls and never loses all workers unheard |
| `Cancellation.HeardCancelEnds` | crates/evix/src/async_master.rs:402-429 | a coordinator at its head with the flag set, or with a worker's word of the cancel next in its channel, sends and emits nothing more; its one remaining step ends the run as cancelled and nothing can follow |
| `Cancellation.CancelledRunEnds` | crates/evix/src/async_master.rs:401-451 | once the flag is set, the coordinator takes no more steps than are left of its dispatch pass and three, whatever is queued, and no worker begins another item |
| `Cancellation.CancelledStep` | crates/evix/src/async_master.rs:547-552 | a worker that takes an item from its channel after the cancel reports the cancel and is gone |
| `Guarantees.EmittedDerivationsOwned` | crates/evix/src/async_master.rs:355-373 | however a run ends, it emitted no derivation whose system no worker owns |
| `Guarantees.CompletionNeedsOwners` | crates/evix/src/async_master.rs:355-373 | a failure-free run completes only if every reachable system is owned |
| `Guarantees.OwnersSuffice` | crates/evix/src/async_master.rs:650-672 | if every reachable system is owned, no step of a run ends it for want of an owner |
| `Guarantees.OwnedRunsNeverEndUnowned` | crates/evix/src/async_master.rs:355-373 | if every reachable system is owned, no run ends for want of an owner, whatever fails |
| `Guarantees.AnyoneOwns` | crates/evix/src/async_master.rs:662-672 | a local worker, or a remote that lists no systems, owns every system |
| `Guarantees.UnlistedNeverEmitted` | crates/evix/src/async_master.rs:650-672 | in a pool of remotes that all list systems, no derivation for a system none of them lists is ever emitted, whatever fails |
| `Guarantees.ListedNeverEnds` | crates/evix/src/async_master.rs:650-672 | with a local worker, a remote that lists no systems or one that lists it for every reachable system, no run ends for want of an owner |
| `Guarantees.UnlistedNeverCompletes` | crates/evix/src/async_master.rs:650-672 | a clean run that reaches a derivation for an unlisted system in such a pool does not complete |
| `Guarantees.CompletionLeavesNoWork` | crates/evix/src/async_master.rs:617-625 | when a run completes, every work channel is empty and no worker holds an item, so the stop commands are accepted at once |
| `Progress.StepDecreases` | crates/evix/src/async_master.rs:401-451 | every action of a run, of any kind, lowers one measure |
| `Progress.EveryRunTerminates` | crates/evix/src/eval.rs:112-129 | on cyclic graphs, under any failures and restarts, a run is no longer than a bound computed from the size of the walk and of the pool |
| `Progress.NeverStuck` | crates/evix/src/async_master.rs:419-422 | while the coordinator waits for a message, some worker holds an item, and some harmless action is possible |
| `Progress.UndisturbedRunsComplete` | crates/evix/src/async_master.rs:407-413 | without faults and with every reachable system owned, a run that can go no further has completed with exactly the walk |
| `Progress.CanComplete` | crates/evix/src/async_master.rs:407-413 | from every undisturbed state some continuation without faults completes |
| `Exchange.PeerStepConforms` | crates/evix/src/remote_worker.rs:268-326 | whatever a worker or a relay does, what its connection will still deliver is what its client is due, in order |
| `Exchange.SendConforms` | crates/evix/src/remote_worker.rs:180-182 | the replies to a request come after those already due |
| `Exchange.ReadConforms` | crates/evix/src/worker_process.rs:222-233 | the next message read is the first one due |
| `Exchange.RelayedConforms` | crates/evix/src/remote_worker.rs:271-313 | relaying a worker's ready, event or status keeps the promise made to the client, across restarts of the worker |
| `Exchange.LocalServes` | crates/evix/src/worker.rs:68-114 | a worker that is set up becomes ready; sent an item, it can answer that item and give its status, and goes on exactly if it did not ask to be restarted |
| `Exchange.RemoteStarts` | crates/evix/src/remote_worker.rs:239-266 | a remote server that is set up starts a process of its own and is ready when that is |
| `Exchange.RemoteRelays` | crates/evix/src/remote_worker.rs:268-313 | it hands an item on to that process and its answer and status back, unchanged and in order, and replaces the process exactly if it asked to be restarted |
| `Exchange.ReportsAndReconnects` | crates/evix/src/async_master.rs:560-588 | a report takes the answer that was read; after it only a local worker that asked for it is started anew; a failed connection is replaced unless the run is being cancelled |
| `Exchange.TaskStepKeeps` | crates/evix/src/async_master.rs:547-615 | every step of the worker task keeps its connection in step with its phase |
| `Exchange.RepliesMatchRequests` | crates/evix/src/async_master.rs:547-615 | over any run with timeouts, crashes, restarts and reconnects, the event reported for an item was computed for that item, reports come in the order items were taken, and a connection a reply was given up on is never read again |
| `Exchange.StaleLinkAnswersOldItem` | crates/evix/src/async_master.rs:578-584 | in any run, a task that gave up on an item and kept its connection would report the late answer as that for the next item, whenever it reports on that at all |
| `Exchange.StaleLinkMisattributes` | crates/evix/src/async_master.rs:578-584 | a history in which it would do so exists for any two items |
| `Composed.HandsOverAnswer` | crates/evix/src/async_master.rs:560-573 | the report a task hands over after reading a status is the evaluator's answer for the item the coordinator gave it |
| `Composed.MoveKeeps` | crates/evix/src/async_master.rs:520-594 | every step of the coordinator, a task, a connection or its far end keeps task, connection and the coordinator's view of the worker in step |
| `Composed.ConnectionsRefine` | crates/evix/src/async_master.rs:520-615 | to the coordinator, every run with real connections, late replies and restarts is a run of the step system, and one without failures if no task gave up |
| `Composed.ConnectedRunIsWalk` | crates/evix/src/async_master.rs:385-615 | with what each worker really read and sent, a completed run in which no task gave up has emitted exactly the simple walk |
| `Composed.ConnectedEventsGenuine` | crates/evix/src/async_master.rs:560-573 | whatever was given up on, every event emitted is the evaluator's answer for the path it reports on or reports an item that a task gave up on, with the reason it gave |
| `Composed.GiveUpIsFailure` | crates/evix/src/async_master.rs:560-573 | a task that gives up on an item is a failure of that item at that worker for that reason, and nothing else is one |
| `Graphs.EvalAccumulator.Record` | crates/evix/src/state.rs:21-31 | a derivation is stored under its path, an error appended, an attribute set ignored |
| `Graphs.RecordRun` | crates/evix/src/run.rs:37-56 | a run whose receiver takes every event records exactly the events streamed; a refusal discards the record |
| `Graphs.RecordedIsStream` | crates/evix/src/state.rs:21-31 | without repeated paths the graph holds exactly the derivations streamed, each under its path |
| `Graphs.SameEventsSameGraph` | crates/evix/src/state.rs:21-31 | the order of events does not show in the graph |
| `Graphs.ListMoved` | crates/evix/src/state.rs:38-44 | one loop lists exactly the entries the other graph lacks or builds differently, each once |
| `Graphs.DiffGraphs` | crates/evix/src/state.rs:33-59 | the two lists are exactly the entries that went and the entries that came |
| `Graphs.DiffIsPatch` | crates/evix/src/state.rs:33-59 | removing and inserting what a diff lists turns the previous graph, or one that agrees with it, into one with the current paths and derivation files; entries not mentioned keep their value |
| `Graphs.PatchOnMovedGraph` | crates/evix/src/session.rs:377-404 | applied to a graph that has moved on from the snapshot, a diff leads to the current graph if and only if nothing has moved that it does not mention |
| `Graphs.PatchExact` | crates/evix/src/state.rs:41-50 | the patch gives the current graph itself if and only if no derivation changed behind an unchanged file |
| `Graphs.EmptyDiff` | crates/evix/src/state.rs:33-59 | both lists are empty if and only if the graphs agree on paths and derivation files |
| `Graphs.ListsAgree` | crates/evix/src/state.rs:39-47 | the arbitrary order of map entries only permutes the lists |
| `Graphs.DiffSwaps` | crates/evix/src/state.rs:33-59 | diffing the other way round swaps the lists |
| `WarmGraph.WarmGraphIsOracle` | crates/evix/src/session.rs:471-480 | the warm graph of a clean run holds exactly the derivations the evaluator finds |
| `WarmGraph.UnchangedInputNoDiff` | crates/evix/src/session.rs:376-406 | re-evaluating an unchanged input, on any pool and schedule, gives the same graph and an empty diff |
| `WarmGraph.DiffIsInputChange` | crates/evix/src/session.rs:376-406 | a diff lists as added just what the new input finds and the old one did not find in the same form, and conversely |
| `WarmGraph.AnswerSurvives` | crates/evix/src/async_master.rs:333-344 | in a completed run, whatever failed, the evaluator's answer for a path is emitted if and only if the path is reachable and nothing at or above it failed |
| `WarmGraph.FailuresCutOff` | crates/evix/src/async_master.rs:435-445 | the graph of a completed run holds exactly the derivations the evaluator finds, less those at or below a path whose evaluation failed |
| `WarmGraph.FailuresAddNothing` | crates/evix/src/async_master.rs:682-693 | what the graph of a completed run holds after failures, the graph of any clean run holds too |
| `Sessions.WarmState.Publish` | crates/evix/src/session.rs:472-477 | a complete run replaces graph and errors, sets the flag and clears the stored error |
| `Sessions.WarmState.QuerySnapshot` | crates/evix/src/session.rs:345-368 | a query succeeds if and only if an evaluation has completed, and lists exactly the entries the filter selects |
| `Sessions.WarmState.TakeSnapshot` | crates/evix/src/session.rs:377-390 | a diff starts from the warm graph if it is complete, and is refused with the stored error or as incomplete otherwise |
| `Sessions.WarmState.FinishDiff` | crates/evix/src/session.rs:391-405 | only an evaluation that ran to its end is published, with the diff from the snapshot; otherwise the warm state is untouched |
| `Sessions.WarmState.DiffOnce` | crates/evix/src/session.rs:376-406 | with any complete evaluations of others published in between, a diff succeeds if and only if the warm graph was complete at its start and its own evaluation ran to its end; it is from the snapshot to the graph it publishes, and otherwise leaves the others' result |
| `Sessions.WarmState.ApplyWatchEvaluationResult` | crates/evix/src/watch.rs:124-152 | a failed re-evaluation is reported and changes nothing, a cancelled one stops the loop, a complete one is published with its diff |
| `Sessions.WarmState.WatchLoop` | crates/evix/src/watch.rs:92-113 | the diffs a watcher is sent, applied in order to the graph it started from, track the warm graph through failed and cancelled re-evaluations |
| `Lifecycle.StepKeeps` | crates/evix/src/session.rs:457-540 | every atomic step of streams, watches, diffs and cancels keeps the session's invariant |
| `Lifecycle.OneInitialEvaluation` | crates/evix/src/session.rs:431-443 | however streams and watches are opened, at most one initial evaluation starts |
| `Lifecycle.OnlyCompleteRunsShow` | crates/evix/src/session.rs:471-495 | the visible graph is empty until an evaluation completes, and then the record of a run that completed |
| `Lifecycle.CompletedSticks` | crates/evix/src/session.rs:471-496 | once completed, a session stays completed |
| `Lifecycle.FirstOpenEvaluates` | crates/evix/src/session.rs:431-443 | the first call to open a stream or a watch starts the initial evaluation if it has a runtime; no other call does, and without a runtime none ever starts |
| `Lifecycle.OpenedTask` | crates/evix/src/session.rs:157-211 | an opening call leaves the evaluation, a watcher that waits, or the report that there is no runtime, and changes nothing a reader sees |
| `Lifecycle.EvaluationLeaves` | crates/evix/src/session.rs:157-194 | once an initial evaluation has wound up, the graph is the record of its stream if it ran to its end, and otherwise the old one with its error or that it was cancelled; only a complete one goes on to watch |
| `Lifecycle.RerunLeaves` | crates/evix/src/watch.rs:124-152 | a later evaluation replaces the graph with its own record if it ran to its end, and otherwise changes nothing |
| `Lifecycle.WaitEnds` | crates/evix/src/watch.rs:180-193 | a wait ends in watching exactly at a read of a completed session, and without exactly at a check of the set flag or a read of an error in a session that has not completed |
| `Lifecycle.WatchersHaveGraph` | crates/evix/src/watch.rs:184-186 | in any history, whoever watches has a session whose initial evaluation completed |
| `Lifecycle.NewWatcherWatches` | crates/evix/src/watch.rs:180-186 | in a completed session that is not cancelled, a new watcher watches after three steps of its own |
| `Lifecycle.CompletedWaitsWatch` | crates/evix/src/watch.rs:180-193 | whatever happens in between, a watcher of a completed session that has stopped waiting watches, unless the session was cancelled |
| `Lifecycle.EndedWaitsHadReason` | crates/evix/src/watch.rs:180-194 | no watcher ends its wait in vain unless the flag was set or an error stood in place of a graph |
| `Lifecycle.NoLostWakeup` | crates/evix/src/watch.rs:175-194 | while a watcher sleeps, a visible outcome has a notification still to come, and a missing one a task that will write it and then notify, unless the evaluation was claimed and never started and no error could be left |
| `Lifecycle.QuietSessionIsTold` | crates/evix/src/session.rs:517-540 | once all calls are over, an opened session has a visible outcome if and only if an evaluation was started or an error was left in its place, and only without one does a watcher sleep |
| `Lifecycle.AwakeWatcherLeaves` | crates/evix/src/watch.rs:180-193 | with a visible outcome, a watcher that is awake comes closer to leaving with every step and never parks again |
| `Lifecycle.RousedLeaves` | crates/evix/src/watch.rs:180-193 | a cancelled watcher that will check the flag, has been notified since it registered or will find an outcome stays so whatever else happens, can always move, and each of its steps brings it closer to leaving |
| `Lifecycle.LeavesIffRoused` | crates/evix/src/watch.rs:180-193 | in a cancelled session a waiting watcher leaves within five steps of its own if and only if it is in that position |
| `Lifecycle.NotificationAfterCancel` | crates/evix/src/watch.rs:180-193 | in any history, a notification sent after the flag is set makes a waiting watcher leave by its own steps if and only if it is not between its check and its registration, or has an outcome to see |
| `Lifecycle.CancelReachesWatcher` | crates/evix/src/session.rs:412-416 | in any history, `cancel` makes a watcher that is waiting leave by its own steps under the same condition and no other |
| `Lifecycle.AbandonedStays` | crates/evix/src/session.rs:528-534 | a watcher left without an outcome, cancelled or not, is notified by nothing but a further cancel or another failing watch |
| `Lifecycle.WatcherCanBeAbandoned` | crates/evix/src/session.rs:528-534 | a history in which a watcher is left so, uncancelled, exists |
| `Lifecycle.CancelCanSlip` | crates/evix/src/watch.rs:180-181 | a cancel between check and registration leaves the watcher asleep with no notification under way, though an evaluation is and will end with one |
| `Lifecycle.CancelledWatcherCanBeAbandoned` | crates/evix/src/session.rs:412-416 | it can also leave a watcher asleep that nothing under way will ever notify, when the initial evaluation never started and no error was left |
| `Registry.SessionRegistry.RemoveOrderEntry` | crates/evix-daemon/src/session_cache.rs:143-147 | the first occurrence of the key leaves the queue, the others keep their order |
| `Registry.SessionRegistry.InsertEntry` | crates/evix-daemon/src/session_cache.rs:131-141 | the eviction loop and the insertion are the function `Insert` |
| `Registry.SessionRegistry.Get` | crates/evix-daemon/src/session_cache.rs:151-156 | a hit returns the binding and makes the key the most recent; a miss changes nothing |
| `Registry.SessionRegistry.Amend` | crates/evix-daemon/src/session_cache.rs:160-167 | a cached key becomes the most recent whether or not the change is accepted, and is changed only if it is; a miss changes nothing |
| `Registry.AmendMeans` | crates/evix-daemon/src/session_cache.rs:160-167 | the queue is the queue without the key, followed by the key; no other binding changes |
| `Registry.EvictClosedForm` | crates/evix-daemon/src/session_cache.rs:133-138 | the eviction loop drops a computed number of the oldest keys and nothing else |
| `Registry.InsertKeepsRecent` | crates/evix-daemon/src/session_cache.rs:131-141 | insertion keeps exactly the most recent of the other keys plus the new binding, and the queue lists exactly the cached keys, each once |
| `Registry.InsertDisplaces` | crates/evix-daemon/src/session_cache.rs:132-138 | insertion displaces another session if and only if the registry is full and holds one, even when the key was cached |
| `Registry.InsertLosesOldest` | crates/evix-daemon/src/session_cache.rs:131-141 | within its bound, a registry loses no other session to an insertion unless it is full, and then exactly the one used longest ago |
| `Registry.TouchKeeps` | crates/evix-daemon/src/session_cache.rs:151-156 | a lookup changes no binding and keeps queue and map in step |
| `Registry.RegistryIsLru` | crates/evix-daemon/src/session_cache.rs:110-168 | after any history the registry holds the most recently used keys with their latest values and never outgrows max(1, max) |
| `Registry.RecencyIsLastUse` | crates/evix-daemon/src/session_cache.rs:131-168 | the recency order is the order of last use: of two keys, the later one has a use after every use of the earlier |
| `Registry.CachedUsedLast` | crates/evix-daemon/src/session_cache.rs:131-168 | in words of the history alone: every cached key was used after the last use of every key that is not cached, and of every key before it in the queue |
| `Replays.CallsAreLru` | crates/evix-daemon/src/session_cache.rs:34-107 | after any calls to replace, look up, replay and settle, settlements refused or not, the registry holds the most recently used sessions, in step with its queue and within its bound |
| `Replays.DaemonRegistryBounded` | crates/evix-daemon/src/lib.rs:760-840 | however eval, diff, watch and replay clients interleave, the registry stays in step and within its bound |
| `Replays.DaemonState.ReplaceSession` | crates/evix-daemon/src/session_cache.rs:34-49 | a new session takes the key's place, recording |
| `Replays.DaemonState.WarmSession` | crates/evix-daemon/src/session_cache.rs:51-67 | a query or diff finds a session if and only if the key is cached |
| `Replays.DaemonState.Replay` | crates/evix-daemon/src/session_cache.rs:69-85 | lines are returned if and only if the cached session has a complete replay, and are that replay; otherwise the error says which of the three reasons there is |
| `Replays.DaemonState.SettleReplay` | crates/evix-daemon/src/session_cache.rs:89-107 | a replaced session and an invalidated replay are left alone, any other entry gets the replay, and the key becomes the most recent in either case |
| `Replays.StreamEvents` | crates/evix-daemon/src/lib.rs:766-785 | every event and failure is written, and a replay is recorded if and only if no event failed |
| `Replays.StepKeeps` | crates/evix-daemon/src/lib.rs:760-840 | every step of concurrent eval, diff, watch, query and replay clients keeps the invariant |
| `Replays.ReplaySafety` | crates/evix-daemon/src/session_cache.rs:69-107 | a replay is every line written by the finished eval that opened the session now cached under the key, these are all the events its evaluation produced on the way to a clean end, and no diff or watch has settled on the session |
| `Replays.SettledEvalReplays` | crates/evix-daemon/src/lib.rs:766-785 | an eval that settles makes its session replayable, with all events of its evaluation, if and only if that ended cleanly and the session is still cached and not invalidated |
| `Replays.HungUpNeverReplays` | crates/evix-daemon/src/lib.rs:766-785 | an eval whose client hangs up before the stream has settled never makes its session replayable, whatever happens later |
| `Replays.InvalidationSticks` | crates/evix-daemon/src/session_cache.rs:100-105 | an invalidated session stays so for as long as it is cached |
| `Replays.DroppedForGood` | crates/evix-daemon/src/session_cache.rs:34-49 | a cached session was cached before or is new: one that was dropped never returns |
| `Replays.ReplayMatchesGraph` | crates/evix-daemon/src/lib.rs:760-840 | while no diff is between publishing and settling, the graph recorded in a replay is the warm graph of its session |
| `Replays.ReplayLagsOnlyInsideDiff` | crates/evix-daemon/src/lib.rs:834-837 | a replay differs from its session's warm graph if and only if a diff is between publishing and settling and the last graph so published differs from the recorded one |
| `Replays.ReplayLagsBehindDiff` | crates/evix-daemon/src/lib.rs:836-837 | for any streamed derivation and any other graph, a history serves the replay of the one while the session's graph is the other |
| `Glob.CellStep` | crates/evix/src/state.rs:130-138 | the meaning of an inner table cell follows from its three neighbours by the code's rule |
| `Glob.CellBorder` | crates/evix/src/state.rs:122-128 | the meaning of a cell in the first column follows from the one above |
| `Glob.FillBorder` | crates/evix/src/state.rs:121-128 | the first loop makes the first column mean what it should |
| `Glob.FillRow` | crates/evix/src/state.rs:130-138 | the inner loop makes a row mean what it should |
| `Glob.WildcardMatches` | crates/evix/src/state.rs:118-141 | the result is true if and only if the text can be cut into one fitting piece for each pattern character |
| `Glob.ConcatMatches` | crates/evix/src/state.rs:118-141 | a concatenated pattern matches exactly the concatenations of what its halves match |
| `Glob.LiteralPattern` | crates/evix/src/state.rs:135 | a pattern without wildcards matches itself and nothing else |
| `Glob.PrefixPattern` | crates/evix/src/state.rs:133 | a literal followed by a star selects by prefix |
| `Glob.AttrPathStartsWith` | crates/evix/src/state.rs:110-116 | the result is true if and only if the prefix is one |
| `Glob.MatchesFilter` | crates/evix/src/state.rs:61-108 | a derivation passes if and only if every criterion that is present holds, includes and excludes by pattern meaning |
| `Forks.Forker.ForkDue` | crates/evix/src/fork.rs:77-111 | one call hands out slots in order while forks are due, the last one to the child that goes on with it, and stops when nothing is due, none are left or an attempt failed |
| `Forks.FollowsSlots` | crates/evix/src/fork.rs:84-108 | each parent or failed fork uses up one slot and a hazard all of them; the child serves the slot its fork used up |
| `Forks.DueMeans` | crates/evix/src/fork.rs:113-117 | a fork is due exactly if five items per fork are done or its time has come |
| `Forks.Forker.Attempt` | crates/evix/src/fork.rs:84-108 | a parent keeps the other slots and notes the child; the child keeps its own slot only; a hazard gives up all |
| `Forks.StepExclusive` | crates/evix/src/fork.rs:90-108 | one fork anywhere in the tree keeps every slot with a single holder |
| `Forks.SlotsServedOnce` | crates/evix/src/fork.rs:77-111 | however the tree grows, no slot is served by two processes, and a child has none to hand out |
| `Forks.StepMeans` | crates/evix/src/fork.rs:84-108 | a fork passes the first slot to the child it adds, a failed one uses it up for nothing, and a process that gives up keeps none |
| `Forks.NoSlotLost` | crates/evix/src/fork.rs:77-111 | while forking succeeds, every slot is still to be handed out or is served |
| `Forks.FdTable.Connect` | crates/evix/src/fork.rs:195-197 | opening the store adds descriptors with new sockets and leaves the others alone |
| `Forks.FdTable.OpenFresh` | crates/evix/src/fork.rs:194-205 | an attempt is accepted if and only if it added exactly one connection |
| `Forks.FdTable.Turn` | crates/evix/src/fork.rs:193-228 | a turn finishes only when every target has moved, and otherwise moves one more onto a socket of its own, connected to whom the turn reached |
| `Forks.FdTable.ReplaceDaemonConnections` | crates/evix/src/fork.rs:191-229 | on success every inherited connection to the daemon has a new socket, shared neither with the parent nor with another, every other one is untouched, there was one turn per target and one more, and the replaced ones lead to the daemon if and only if every turn but the last reached it |
| `Forks.FdTable.NextTurn` | crates/evix/src/fork.rs:193-228 | one turn with the store it opens keeps the history of whom the turns reached |
| `Forks.StrayOpening` | crates/evix/src/fork.rs:207-213 | a store that leads elsewhere the second time makes the loop succeed with a descriptor that no longer leads to the daemon |
| `ForkEnv.DecimalParses` | crates/evix/src/fork.rs:170-173 | a printed descriptor is read back |
| `ForkEnv.SignedParses` | crates/evix/src/fork.rs:170-173 | with or without a sign, exactly the numbers that 32 bits hold are read |
| `ForkEnv.ParsedIsDigits` | crates/evix/src/fork.rs:170-173 | nothing but a sign and at least one digit is |
| `ForkEnv.SplitJoin` | crates/evix/src/fork.rs:39-47 | splitting at the separator undoes joining |
| `ForkEnv.SlotRoundTrip` | crates/evix/src/fork.rs:158-165 | one slot survives the trip, and its text holds no list separator |
| `ForkEnv.SlotAccepted` | crates/evix/src/fork.rs:158-182 | a slot is read if and only if its text is two open descriptors with a colon between them, and is those two in order |
| `ForkEnv.SlotsAccepted` | crates/evix/src/fork.rs:156-168 | one bad piece spoils the list; otherwise there is one slot for each piece, in order |
| `ForkEnv.TwoSlotsText` | crates/evix/src/fork.rs:39-47 | descriptors are joined by colons and slots by commas; without slots the variable is not set |
| `ForkEnv.SlotsRoundTrip` | crates/evix/src/fork.rs:147-168 | the worker gets back exactly the slots its master prepared, in order |
| `ForkEnv.EnvValueReadable` | crates/evix/src/worker_process.rs:93-94 | a list of usable slots is read back from its own text if and only if it is not empty |
| `JsonEvents.DerivationValue` | crates/evix/src/json.rs:8-42 | inserting field by field builds the object that has each field of the derivation under its name, optional ones only when present |
| `JsonEvents.DerivationAccepted` | crates/evix/src/json.rs:110-164 | a derivation is read if and only if its five required fields, and constituents and input derivations if present, are well formed; each field is the one of that name |
| `JsonEvents.EventAccepted` | crates/evix/src/json.rs:90-108 | a derivation file makes an object a derivation, otherwise an error makes it an error, fatal only if it says true, and the rest are sets, empty unless they list names; what each needs to be accepted |
| `JsonEvents.InputsMean` | crates/evix/src/json.rs:127-141 | input derivations are read as printed, refused if one is not a list of strings, and none if there is no object |
| `JsonEvents.OutputsMean` | crates/evix/src/json.rs:110-126 | outputs are kept by name, without a path where there is no string |
| `JsonEvents.OptionalsMean` | crates/evix/src/json.rs:142-163 | constituents and the gc-root error are read as printed, the former refused if malformed |
| `JsonEvents.FieldMeans` | crates/evix/src/json.rs:166-182 | a required field is read if and only if it is there and of its type; a missing one is named in the error |
| `JsonEvents.OutputsRoundTrip` | crates/evix/src/json.rs:110-126 | outputs are read back, null ones as absent paths |
| `JsonEvents.InputsRoundTrip` | crates/evix/src/json.rs:127-141 | input derivations are read back, and an omitted field as none |
| `JsonEvents.OptionalRoundTrip` | crates/evix/src/json.rs:142-163 | empty and absent constituents stay apart, as do a null and an absent `meta` |
| `JsonEvents.EventRoundTrip` | crates/evix/src/json.rs:44-107 | every event is read back as it was; the three shapes are told apart by keys alone |
| `JsonEvents.EventJsonInjective` | crates/evix/src/json.rs:44-67 | no two events print alike |
| `Lines.ReadLimitedLine` | crates/evix-daemon/src/lib.rs:731-758 | however the stream is cut into pieces, the result is its first line, up to and including byte 10, exactly that line is consumed, and reading fails, naming the limit, if and only if the line exceeds it |
| `Lines.TakePiece` | crates/evix-daemon/src/lib.rs:738-756 | one turn takes what the buffer holds of the line, or refuses a line that has no room |
| `Lines.StderrTail.PushTail` | crates/evix/src/worker_process.rs:514-521 | the tail is the end of everything pushed, all of it or its last 65536 bytes |
| `Lines.CaptureStderr` | crates/evix/src/worker_process.rs:478-512 | the tail kept and the lines traced depend on the stream alone, not on how reads cut it up |
| `Lines.TracedMeans` | crates/evix/src/worker_process.rs:494-509 | what is traced is the lines in order, each cut after 16384 bytes, and marked exactly if anything was cut off |
| `Lines.LinesRoundTrip` | crates/evix/src/worker_process.rs:494-509 | cutting into lines loses nothing and leaves no newline inside a line |

## Left out

- The Nix C API, the store, flake locking and gc-root links are foreign: the evaluator appears as functions about which only distinct attribute names are assumed.
- `value_to_json`, `normalize_absolute`, `token_matches`, the config builders and the connection limiter would add only easy members.
- Cap'n Proto encoding and the JSON text format: messages and JSON values are datatypes.
- Command line, logging, daemonising, sockets, signals and `/proc` scans; a hazard found by a scan is an outcome the model may choose.
- Coordinator.Evaluation.Coordinate: a fault is a datatype value that says which error it is and what it carries, not the message text; the wait for worker tasks to end after the loop is not modelled.
- Distributed.WorkerActionKeeps: a worker task that ends because the coordinator has already gone is not modelled, since the run is then over.
- Pool.WorkerSpecs: creating the sockets and pipes of forked workers, and its failure, is not modelled.
- Composed.ConnectionsRefine: that a connection can always make progress is not shown; the step system's own progress is.
- Exchange.PeerStepConforms: timeouts on single reads, authentication and configuration checks are a peer that may quit or report a failure at any time.
- Guarantees.CompletedRunIsWalk: the evaluator is taken to answer a path alike on every worker and every time, as the program takes it to.
- Sessions.WarmState.WatchLoop: file events, debouncing and a receiver that goes away are not modelled, and no `diff_once` runs beside the loop; with one, a watcher would have to apply its diffs too.
- Sessions.WarmState.DiffOnce: what others do to the warm state between its two locked sections is a list of evaluations they publish.
- Lifecycle.StepKeeps: each lock acquisition is one atomic step, so a state lock held across a write and its notification is modelled as two steps, which allows more interleavings than the program has.
- Replays.StepKeeps: equal session keys stand for equal configurations; that the key text tells configurations apart is assumed. The daemon's process restart is not modelled, nor a panic of an evaluation, which would end its stream as if it had come to a clean end.
- Forks.Forker.ForkDue: an I/O error while looking for hazards is not modelled, and the child's replacement of its daemon connections is proved separately.
- Forks.FdTable.ReplaceDaemonConnections: descriptors that are not connected Unix sockets are not part of the table; the kernel is taken never to hand out an open descriptor.
- ForkEnv.SlotAccepted: which bad slot an error message quotes is not modelled.
- Replays.DaemonState.WarmSession: the text of the refusal is not modelled.
- Lines.ReadLimitedLine: an error of the underlying stream is not modelled, nor is the stripping of the line ending and the check for UTF-8.
- Lines.CaptureStderr: decoding of the tail as text is not modelled.
- Graphs.RecordRun: the evaluation that produces the events is the subject of the coordinator's modules; here it is the list of its events.
