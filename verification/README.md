# The event-sourced run protocol, verified

This project models how the dashboard runs work: an append-only event log with per-stream revision
checks, control operations (start, pause, resume, cancel, retry) that append to it, worker processes
that load a snapshot, execute items and append rebased batches with retries, and four replays of the
log that are meant to tell one story. It proves what every interleaving keeps, where the replays
agree, and exactly where they do not.

`dafny verify dfyconfig.toml` checks the whole project.

## How it is laid out

| modules | what they hold |
|---|---|
| Events, Log, EventStore | envelopes and payloads; streams, revisions and the append rule as values; the store as a class |
| WorkerReplay, OrchestratorReplay, Rebuild, History | the four replays, each with its own loop over mutable state and the fold it computes |
| Agreement, Disagreements | when those replays agree, as if-and-only-ifs over arbitrary logs, and logs on which they do not |
| LoadOrder | what a load sorted by time shows of an item and of a run |
| Planner, Dispatcher, Orchestrator, ControlEffects | splitting an objective, dealing items out, the control operations and their effect on a replay |
| Harness, Tick, TickReplay, RetryAppend, WorkerLoop | one execution, one tick, memory against replay, the append retry loop, the worker process |
| ProjectionStore, Projections | the two projection tables, and incremental rows against rebuilt ones |
| RowContents, ReachableRows | what every field of a rebuilt row comes from, and when whole rows agree over the traces below |
| Protocol, Commits, Refinement | all processes together as a state machine: loads, offered batches, attempts, lost acknowledgements, commits that take effect late, control operations decided on old reads; what its steps append; and the methods as moves of it |
| ProtocolSoundness, ReachableLogs, Custody | what holds over every trace of that machine, without conditions |
| ProtocolSafety, AtomicControl | what holds of a run whose retries, loads and late commits are safe |
| Redoing, Affinity | why those conditions, and affinity, are needed: what happens whenever one fails |
| Halting, RunClosings, Deadlock | runs that were paused, closed or blocked: how much is still written to them |
| Scenes, StaleRetry, LateBatch, LateCommit, Clocks | concrete traces: items completed twice, a pause no load shows, work no rebuild holds |
| Progress, StatusHistory | undisturbed ticks: how many finish a run, and the run status over whole histories |

Methods that update state are proved against a function of the old state (`Current`, `View`, `Memory`
and the like); the theorems are about those functions. `Refinement` ties the methods of the worker and
of the orchestrator to the steps of the protocol.

## Modelling choices

- Costs are `real` and efforts `int`, so rounding and 32-bit overflow are not modelled.
- A hash map is iterated in an order picked nondeterministically, so results hold for every order.
- UUIDs are numbers. A batch that needs n fresh identifiers is given the first of n consecutive ones;
  in the protocol a batch may carry any identifiers never generated before, and a started run any item
  identifiers that no event names.
- A worker's load of the protocol is any permutation of the log sorted by time and then by revision, as
  `load_all` returns it, with any timestamps on any event. A batch that is rebased keeps the timestamps
  it was built with (crates/application/src/bin/worker.rs:501-502), so a load may show an older state
  than the commit order does. `LoadOrder` says exactly what a load shows: of every item and of every
  run's status, the latest event by time and then by revision.
- Reconnecting to the database does not touch the log. In the protocol a commit that was reported as failed
  may take effect at any time: while its worker still tries, as one of its attempts; after the worker gave the
  batch up, as a step of its own (`Surface`). In the methods it has taken effect before the failure is reported.
- The status strings of runs and items are datatypes; a run may also have any other status text.

## Where the code is not what one would expect

- With affinity everywhere, or a single worker, an item can be completed twice in three ways that the code
  leaves open, each with one affinity worker:
  - Retry loads the stream twice, and only the second load is protected by the revision check. A retry
    decided on an old read reassigns an item completed since (`StaleRetry.StaleRetryCompletesTwice`).
    `Redoing.RetryKeepsItemsExactly` is the exact condition on the retry.
  - A batch accepted with an old time is shown by a load before what was committed before it, even when
    every retry is atomic (`LateBatch.LateBatchCompletesTwice`). A load lets its worker redo a completed item
    if and only if the item's latest event is its assignment and the run's latest status event sets it running
    (`Redoing.LoadTemptsExactly`), and then it may be completed again (`Redoing.TemptationCompletesTwice`).
  - A batch that was given up after a reported failure takes effect while a later tick of its worker does
    the same item (`LateCommit.LateCommitCompletesTwice`). `Redoing.SurfaceIsSafeExactly` is the
    exact condition on the late commit, and `Redoing.PendingIsRedone` what follows when it fails.

  For each run by itself: on every trace on which none of the three happens to that run, whatever happens to
  the others, each of its items completes at most once (`ProtocolSafety.CompletedAtMostOnce`). A store that
  accepted no batch of the run older than its stream would rule out the second way
  (`AtomicControl.TimelyControlIsSafe`). With any other choice of affinity it is false
  (`Affinity.ExclusiveExactly`).
- That items keep their agents under affinity, and that a run neither gains nor loses items, needs none of
  these conditions (`Custody.AgentsNeverChange`, `Custody.ItemsNeverChange`). Without affinity everywhere,
  items do change hands (`Affinity.StrictExactly`).
- A pause whose time is before that of the event that last set the run running is committed, and has no
  effect on any load (`Halting.HaltTakesHoldExactly`; `Clocks.PauseGoesUnseen` is a trace on which the worker
  goes on to execute the paused run).
- A run shared by several workers may be closed several times: once by each worker that loads it with all
  items done before it sees it closed (`RunClosings.ClosedPerWorker`, `RunClosings.ClosesOnceMore`).
- A failed item deadlocks its run: the workers see it blocked and leave it alone, and the orchestrator,
  which sees it running, answers retry and resume with "unchanged" (module `Deadlock`).
- PLAN.md:142 asks that the worker's replay and the rebuild agree on core fields. On one load, their items
  agree in every reachable log, and their totals do unless the load puts work before the run's start
  (`ReachableLogs.LoadedItemsAgree`, `ReachableLogs.AccountsAgree`; `Clocks.WorkGoesUncounted` is a trace on
  which it does). Run status does not
  always: the rebuild sets "running" on every completion and progress chunk
  (crates/infra/src/replay.rs:90, 170). `Disagreements.RebuildDisagreesWithWorker` is a log where they
  differ; `Agreement.RebuiltStatusAgrees` and `StatusHistory.TickKeepsStatusExactly` say exactly when.
- The orchestrator does not see a failed item as blocking the run
  (`Disagreements.OrchestratorDisagreesWithWorker`); `Agreement.OrchestratorStatusAgrees` says exactly what
  follows. The worker does not mark an item blocked on a blocker; `Agreement.WorkerItemsAgree` says exactly
  what follows from that.
- A rebuilt item row keeps the agent of the item's last assignment, while the worker and the orchestrator also
  take the agent of a later start (crates/infra/src/replay.rs:116-127). `RowContents.RebuiltAgentAgrees` says
  exactly when they are the same, `ReachableRows.LoadedRowsAgree` that with affinity everywhere they always
  are, and `Affinity.LooseWorkerTakes` is a trace without affinity on which they are not.
- A worker's in-memory totals leave out the progress chunks that its own batch writes;
  `TickReplay.TickSimulatesReplay` gives the exact difference.

## Model

| member | source | states |
|---|---|---|
| Log.AppendKeepsLog | crates/infra/src/persistence.rs:64-122 | any append, by anyone to any stream, keeps every stream numbered 1..n in commit order and event identifiers unique; a rejected batch leaves no trace |
| Log.AppendExtendsStream | crates/infra/src/persistence.rs:101-117 | an accepted batch extends exactly its own stream, whole and in order, and no other |
| Log.LatestIsLength | crates/infra/src/persistence.rs:79-84 | in such a log the maximum revision of a stream is its length |
| Log.AppendLandsOnWhatWasRead | crates/application/src/orchestrator.rs:276-282 | a batch numbered from an earlier `next_revision` is accepted only onto exactly the stream that call read |
| Log.UnmovedStreamAccepts | crates/infra/src/persistence.rs:86-96 | if the stream has not moved, consecutive revisions and fresh identifiers are enough to be accepted |
| EventStore.PostgresEventStore.Append | crates/infra/src/persistence.rs:64-122 | the whole outcome of an append, including an early failure and a lost acknowledgement: the batch is committed entirely or not at all |
| EventStore.PostgresEventStore.LatestRevision | crates/infra/src/persistence.rs:79-84 | the greatest revision of the stream, or zero |
| EventStore.PostgresEventStore.Load | crates/infra/src/persistence.rs:124-134 | the stream in revision order 1, 2, 3, ... |
| EventStore.PostgresEventStore.LoadAll | crates/infra/src/persistence.rs:136-145 | all rows, each once, sorted by time and then revision |
| EventStore.TimeOrderIsRevisionOrder | crates/infra/src/persistence.rs:136-145 | loading in time order shows a stream in revision order if and only if its timestamps never decrease |
| LoadOrder.LoadShowsLatest | crates/infra/src/persistence.rs:136-145 | in any load the last event on an item, or on a run's status, is exactly the latest one in the log by time and then by revision |
| LoadOrder.LoadShowsFinished | crates/application/src/bin/worker.rs:333-420 | a load shows an item as completed if and only if its latest event is its completion |
| LoadOrder.LoadShowsItem | crates/application/src/bin/worker.rs:333-420 | a load shows an item in a status if and only if the item's latest event, by time and then by revision, sets that status |
| LoadOrder.LoadShowsRunning | crates/application/src/bin/worker.rs:333-420 | a load shows a run as running if and only if its latest status event sets it running |
| LoadOrder.LoadKeepsKeys | crates/application/src/bin/worker.rs:333-420 | whatever the order, a load shows the same items of a run |
| LoadOrder.ReplayIsLocal | crates/application/src/bin/worker.rs:333-420 | the worker's replay and the rebuilt row of a run depend on its own stream alone |
| LoadOrder.LoadOrderIsHarmless | crates/infra/src/persistence.rs:136-145 | a load changes no replay of a run whose timestamps follow its revisions |
| WorkerReplay.RunState.Absorb | crates/application/src/bin/worker.rs:352-416 | one event applied to one run in memory is one step of the fold, for every kind of event |
| WorkerReplay.RunStatesFromEvents | crates/application/src/bin/worker.rs:333-420 | one separate state for exactly the runs the log mentions, each holding the fold of the log for that run |
| WorkerReplay.ReplayBatch | crates/application/src/bin/worker.rs:333-420 | events about one run move that run by their payloads and leave the replay of every other run alone |
| OrchestratorReplay.RunReplayState.FromEvents | crates/application/src/orchestrator.rs:297-376 | the loop over the stream computes the fold used by the control operations |
| ProjectionStore.PostgresProjectionStore.UpsertRun | crates/infra/src/persistence.rs:205-232 | replaces the row of one run and no other row |
| ProjectionStore.PostgresProjectionStore.UpsertWorkItem | crates/infra/src/persistence.rs:234-257 | replaces the row of one item and no other row |
| ProjectionStore.PostgresProjectionStore.Clear | crates/infra/src/persistence.rs:259-269 | empties both tables, the items first, up to the first deletion that fails |
| Rebuild.Replay | crates/infra/src/replay.rs:37-243 | one pass over the interleaved log gives each run and each item the row its own events determine |
| Rebuild.RunProjectionState.Absorb | crates/infra/src/replay.rs:56-240 | the in-place update of an entered run, for every event about it but its start |
| Rebuild.ItemProjectionState.Absorb | crates/infra/src/replay.rs:93-226 | the in-place update of an entered item, for every event that names it |
| Rebuild.ReplayRun | crates/infra/src/replay.rs:41-242 | one event inserts a start, enters a new run or updates the entered one, and touches no other entry of the hash map |
| Rebuild.ReplayItem | crates/infra/src/replay.rs:93-226 | one event enters or updates the item it names, and touches no other entry of the hash map |
| Rebuild.RebuildProjections | crates/infra/src/replay.rs:28-270 | whatever the tables held before, afterwards they hold exactly the replay of the whole log; and exactly how far it got if the load, a deletion or any row write fails |
| History.BuildCostEffortHistory | crates/api/src/routes.rs:354-375 | one point for each row that moves a total, in order, with that row's revision and time and the totals of the rows up to it |
| History.MovePositionsAre | crates/api/src/routes.rs:358-363 | the rows so counted move a total, and are taken in order |
| History.EveryMoveHasPosition | crates/api/src/routes.rs:358-363 | and none that moves a total is missing |
| History.OnePointPerMove | crates/api/src/routes.rs:365-372 | the k-th point is that of the k-th such row |
| History.HistoryGrows | crates/api/src/routes.rs:354-375 | the history of further rows begins with the history so far |
| History.LastPointHoldsTotals | crates/api/src/routes.rs:354-403 | the last point holds the totals of the whole stream, and there is none only if both are zero |
| Agreement.WorkerItemsAgree | crates/application/src/bin/worker.rs:355-416 | against the orchestrator's replay of the run's stream, agents are always equal, and the item is equal if and only if the last event naming it is not a blocker |
| Agreement.RebuiltItemsAgree | crates/infra/src/replay.rs:93-226 | global replay is local: in any interleaved log the rebuilt items of a run, with statuses, are those its own stream gives alone |
| RowContents.ItemRowExists | crates/infra/src/replay.rs:93-226 | a rebuilt item row exists exactly for the items that some event names |
| RowContents.ItemRowRun | crates/infra/src/replay.rs:93-226 | it keeps the run of the first event that named the item |
| RowContents.ItemRowStatus | crates/infra/src/replay.rs:93-226 | it has the status that the last event naming the item gives |
| RowContents.ItemRowAgent | crates/infra/src/replay.rs:93-107 | it has the agent of the item's last assignment |
| RowContents.ItemRowWithoutAgent | crates/infra/src/replay.rs:116-226 | and none if the item was never assigned |
| RowContents.WorkerAgent | crates/application/src/bin/worker.rs:360-379 | the worker's replay has the agent of the last event that assigned or started the item |
| RowContents.RebuiltAgentAgrees | crates/infra/src/replay.rs:93-127 | the rebuilt agent is the worker's and the orchestrator's if and only if the last start since the last assignment, if any, is by the agent it was assigned to |
| RowContents.RunRowWorkspace | crates/infra/src/replay.rs:42-55 | a rebuilt run row has the workspace of the worker's replay |
| RowContents.RunRowTime | crates/infra/src/replay.rs:56-240 | its time is that of the last event about the run other than an assignment or a start of an item |
| RowContents.RunRowEntered | crates/infra/src/replay.rs:93-143 | and that of the run's first event if there is no such event |
| RowContents.RunRowStatus | crates/infra/src/replay.rs:56-240 | its status is that of the last event that sets one or records work, which sets it running |
| RowContents.RunRowUndecided | crates/infra/src/replay.rs:93-143 | and running if there is no such event |
| RowContents.ReplayTime | crates/application/src/bin/worker.rs:352-354 | the worker's replay has the time of the run's last event |
| RowContents.ReplayRevision | crates/application/src/bin/worker.rs:352-354 | and the greatest revision of its events, or zero |
| Agreement.RebuiltStatus | crates/infra/src/replay.rs:56-240 | the rebuilt status is "running" if work was recorded since the last status event, and the worker's status otherwise |
| Agreement.RebuiltStatusAgrees | crates/infra/src/replay.rs:56-240 | the rebuilt and the worker's status are equal if and only if no work followed the last status event or the run is running |
| Agreement.OrchestratorStatusAgrees | crates/application/src/orchestrator.rs:347-356 | the worker's and the orchestrator's run status differ if and only if a failed item is the last status event and the last one before the failures does not block the run |
| Disagreements.RebuildDisagreesWithWorker | crates/infra/src/replay.rs:144-200 | a started run of two items and one tick, after which the rebuilt run is running and the worker's replay of the same load has it blocked |
| Disagreements.OrchestratorDisagreesWithWorker | crates/application/src/orchestrator.rs:347-356 | a started run and one failing tick, after which the worker's replay has it blocked and the orchestrator's has it running |
| Agreement.WorkerTotals | crates/application/src/bin/worker.rs:380-405 | replayed totals are the sums over the run's completions and progress chunks |
| Agreement.HistoryTotals | crates/api/src/routes.rs:354-403 | totals over the run's own stream are the sums over the whole interleaved log |
| Agreement.RebuiltTotals | crates/infra/src/replay.rs:42-92 | rebuilt totals are those sums less what preceded the last start, which resets them |
| Agreement.NothingBeforeStart | crates/infra/src/replay.rs:42-55 | nothing precedes the start of a run that never restarts |
| Agreement.TotalsConserved | crates/infra/src/replay.rs:144-174 | worker, rebuild and history all hold the same totals |
| Agreement.RowIffMentioned | crates/infra/src/replay.rs:40-243 | the rebuild has a row for exactly the runs the log mentions |
| Agreement.TotalsIgnoreOrder | crates/application/src/bin/worker.rs:380-405 | the sums are the same for every order of the same events |
| Agreement.RebuiltTotalsIgnoreOrder | crates/infra/src/replay.rs:42-92 | rebuilt rows and totals are unchanged by any reordering in which nothing precedes a run's start |
| Harness.ChunkEffort | crates/application/src/harness.rs:388-391 | half of an effort rounded down, and at least 1 |
| Harness.EventsForExecution | crates/application/src/harness.rs:364-401 | started by the worker, then completed with the result's effort and cost and a chunk of half of each (the effort rounded down, at least 1), or failed with the result's reason; consecutive revisions, and whose event each is |
| Tick.ExecuteItem | crates/application/src/bin/worker.rs:124-203 | the events of one execution, by the item's agent or else the worker, the reason of a crash, and the whole update of the run in memory |
| Tick.ExecuteItems | crates/application/src/bin/worker.rs:102-204 | every picked item was eligible when picked, at most m are taken, and if fewer were then none eligible is left |
| Tick.CloseIfDone | crates/application/src/bin/worker.rs:206-218 | a closing event is added, and the run completed in memory, exactly when every item is completed |
| Tick.AdvanceRun | crates/application/src/bin/worker.rs:89-218 | the whole batch of a tick and the run left in memory; runs that are not running, have no workspace or no items are left alone |
| Tick.BooksAreOfLastEvent | crates/application/src/bin/worker.rs:186-218 | after a tick that closed the run, or whose last job came back, memory has the revision of the batch's last event and the tick's time; after one in which no job came back it has neither |
| TickReplay.LegalJobs | crates/application/src/bin/worker.rs:103-122 | a tick never takes an item twice, and takes only items that were assigned (and its own, with affinity) in the snapshot |
| TickReplay.BatchReplay | crates/application/src/bin/worker.rs:355-416 | what a batch does to a replay in any state, not only the one it was built from |
| TickReplay.ReplayedItem | crates/application/src/bin/worker.rs:370-401 | after a batch an item is completed or failed if the batch touches it, and unchanged otherwise |
| TickReplay.TickSimulatesReplay | crates/application/src/bin/worker.rs:98-218 | with nothing in between, replaying the batch gives the state kept in memory, with the effort ahead by the sum of the halves of the succeeded jobs' efforts (each rounded down, at least 1) and the cost by half of what the jobs added |
| RetryAppend.Submit | crates/application/src/bin/worker.rs:464-467 | the batch, rebased on a possibly outdated revision, is appended once or not at all, and never again if it is in the log already |
| RetryAppend.TryOnce | crates/application/src/bin/worker.rs:433-476 | in any weather one attempt leaves the batch absent or whole, and success means whole |
| RetryAppend.AppendEventsWithRetry | crates/application/src/bin/worker.rs:422-494 | with failing reads, lost acknowledgements and other writers around every attempt: the batch is absent or stands whole, contiguous and in order; Ok means it does; at most max(1, attempts) tries, the k-th sleep is min(b*2^(k-1), 5000) ms, and the sleeps total at most 5000 ms per retry; nothing enters the log but the batch and what others write; the first sleep is the one asked for, each next one doubles it, none exceeds 5 seconds |
| RetryAppend.AttemptOutcome | crates/application/src/bin/worker.rs:464-490 | a batch that is already in the log is never accepted again, because rebasing keeps identifiers |
| RetryAppend.WholeMeansOnce | crates/application/src/bin/worker.rs:496-506 | each event of such a batch stands in exactly one place of the log |
| RetryAppend.NextDelay | crates/application/src/bin/worker.rs:458-459 | doubling with saturation and capping at every step is capping the exact power once |
| Planner.ResolveTargetItemCount | crates/application/src/planner.rs:20-25 | what was asked for, 4 if nothing was, at least 1 and at most 12 |
| Planner.ResolveAgentCount | crates/application/src/planner.rs:27-31 | what was asked for, 1 if nothing was, at least 1 and at most 16 |
| Planner.ChunkWidth | crates/application/src/planner.rs:54-56 | the least width, from 1 on, of which the target number of chunks hold all the words |
| Planner.CeilingFits | crates/application/src/planner.rs:54-60 | chunks wide enough for the target number of them to hold all the words never outnumber the target |
| Planner.ChunksConcatenate | crates/application/src/planner.rs:58-63 | the chunks put together are the words in order |
| Planner.DecomposeLosesNothing | crates/application/src/planner.rs:42-104 | 1 to t unassigned items; splitting their texts gives the words of the objective in order; all steps but the last have w words, w the least for which t steps are enough, and there are just as many steps as that takes; without words, min(4, t) stock steps |
| Planner.StockItems | crates/application/src/planner.rs:82-101 | which the stock steps are |
| Planner.WordsLoseNothing | crates/application/src/planner.rs:49-52 | splitting on whitespace gives non-empty words without whitespace, and together they are the objective without its whitespace |
| Planner.WhitespaceIs | crates/application/src/planner.rs:49-52 | whitespace is the 25 characters of the Unicode White_Space property |
| Planner.JoinPutsSpaces | crates/application/src/planner.rs:58-63 | joining puts one space between two words and nothing else |
| Planner.SplitJoin | crates/application/src/planner.rs:58-63 | the words of a chunk, joined by spaces, split back into themselves |
| Dispatcher.AssignItems | crates/application/src/dispatcher.rs:14-41 | keeps the items, their order and identifiers, and leaves each assigned to some agent |
| Dispatcher.DealtInTurn | crates/application/src/dispatcher.rs:24-38 | the first items go to the agents in order, and then it begins again with the first; without agents all go to the fallback |
| Dispatcher.LoadIsTurns | crates/application/src/dispatcher.rs:24-38 | how many items each agent gets, exactly |
| Dispatcher.DispatchIsBalanced | crates/application/src/dispatcher.rs:24-38 | any two agents' loads differ by at most one |
| Orchestrator.DefaultAgents | crates/application/src/orchestrator.rs:246-255 | as many agents as resolved, between 1 and 16, each from the supply |
| Orchestrator.Orchestrator.ReadNextRevision | crates/application/src/orchestrator.rs:276-282 | one more than the last revision of the stream, or 1 |
| Orchestrator.Orchestrator.StartRun | crates/application/src/orchestrator.rs:75-131 | the batch of a start, decomposed from the objective's text, and the log after it; with a failing read, other writers in between and a connection that fails or loses the acknowledgement |
| Orchestrator.Announce | crates/application/src/orchestrator.rs:84-123 | the start in its workspace with its objective, then one assignment per item to the agent it was dealt to, in order, with consecutive revisions |
| Orchestrator.Orchestrator.ChangeStatus | crates/application/src/orchestrator.rs:212-244 | every outcome of a status change: unknown run, unchanged status, or one status event decided on one read, numbered from a second and appended to a third state of the log; with failing reads and connections |
| Orchestrator.Orchestrator.PauseRun | crates/application/src/orchestrator.rs:133-136 | a status change to paused, by hand |
| Orchestrator.Orchestrator.ResumeRun | crates/application/src/orchestrator.rs:138-141 | a status change to running, by hand |
| Orchestrator.Orchestrator.CancelRun | crates/application/src/orchestrator.rs:143-146 | a status change to cancelled, by hand |
| Orchestrator.Orchestrator.RetryRun | crates/application/src/orchestrator.rs:148-210 | every outcome of a retry, with other writers at work between its two reads and its append, failing reads, and a connection that fails or loses the acknowledgement |
| Orchestrator.Reassign | crates/application/src/orchestrator.rs:163-198 | for any iteration order: running again by manual retry, then each unfinished item once, to its former agent or else a new one, and no finished one |
| ControlEffects.RetryRestores | crates/application/src/orchestrator.rs:148-210 | after a retry: running, the same items, completed ones untouched, every other assigned, to its former agent if it had one and a new one otherwise |
| ControlEffects.RetryOnWorker | crates/application/src/bin/worker.rs:360-369 | the same batch in the worker's replay: status, and nothing but the reassigned items |
| ControlEffects.StaleRetryUndoes | crates/application/src/orchestrator.rs:179-195 | a retry undoes a completion if and only if an item unfinished at its decision is completed at its append |
| ControlEffects.StartedRunIsBalanced | crates/application/src/orchestrator.rs:97-123 | planner and dispatcher together: different items that carry the whole objective, as many as it takes for the target, the first ones to the agents in order, loads at most one apart |
| ControlEffects.StartIsWellFormed | crates/application/src/orchestrator.rs:84-125 | a start on a fresh run is always accepted, as revisions 1 to n+1 of its stream |
| ControlEffects.StartReplays | crates/application/src/bin/worker.rs:355-369 | a start replays to a running run with exactly the n dealt items, each assigned to the agent it was dealt to |
| Protocol.BatchCompletions | crates/application/src/bin/worker.rs:167-218 | a batch carries one completion per item it completes, and none else |
| Custody.LandCustodial | crates/application/src/bin/worker.rs:355-416 | a batch from a stale snapshot, replayed on what the run has become, keeps the run's items, each with an agent, and with affinity everywhere with the agent it had |
| Custody.StepInCustody | crates/application/src/bin/worker.rs:87-254 | every step of every process keeps every run's items, and with affinity everywhere their agents |
| Custody.ItemsNeverChange | crates/application/src/orchestrator.rs:179-195 | for any workers and on every trace, a run that has items never gains or loses one, and each has an agent |
| Custody.AgentsNeverChange | crates/application/src/orchestrator.rs:179-195 | with affinity everywhere, on every trace and without further conditions, no item changes hands, and every load shows it under the agent it has |
| ProtocolSafety.LandedFinished | crates/application/src/bin/worker.rs:355-416 | a batch from a stale snapshot finishes exactly the items it completes, and reopens none |
| ProtocolSafety.ClosingIsTrue | crates/application/src/bin/worker.rs:206-218 | if memory said every item was completed, so does the log after the batch, although the snapshot was stale |
| Commits.ItemsAgree | crates/application/src/orchestrator.rs:297-376 | over one order of the events, without blockers, the worker's and the orchestrator's replay hold the same items |
| ProtocolSafety.StepKeeps | crates/application/src/bin/worker.rs:89-254 | every step of every process keeps the safety invariant of a run, if the retries, loads and late commits of that run are safe in it |
| ProtocolSafety.CompletedAtMostOnce | crates/application/src/bin/worker.rs:103-204 | under every interleaving, with loads sorted by time, each item of a run has at most one completion in the log and its status tells whether it has one, provided that retries, loads and late commits of that run are safe, whatever those of others are |
| ProtocolSafety.CompletionIsFinal | crates/application/src/bin/worker.rs:206-218 | whenever RunCompleted of such a run is in the log, every item was completed at that prefix and is in every later log |
| ProtocolSafety.LoadShowsRunDone | crates/application/src/bin/worker.rs:290-292 | a load shows a run as finished if and only if each of its items has its completion as its latest event |
| Redoing.RetryKeepsItemsExactly | crates/application/src/orchestrator.rs:148-210 | an accepted retry keeps statuses and completions of its run in step if and only if no item it reassigns was completed since its decision |
| Redoing.LoadTemptsExactly | crates/application/src/bin/worker.rs:57-122 | some legal jobs of a worker that loads the log touch a completed item of a run if and only if the item's latest event is its assignment, to this worker if it has affinity, and the run's latest status event sets it running |
| Redoing.TakesWhatItSaw | crates/application/src/bin/worker.rs:102-204 | what a tick was shown as open its worker may complete, whatever has become of it since |
| Redoing.TemptationCompletesTwice | crates/application/src/bin/worker.rs:57-122 | whenever that is so, every trace that was safe for the run goes on to a second completion |
| Redoing.SurfaceKeepsItemsExactly | crates/application/src/bin/worker.rs:422-494 | a batch that takes effect after it was given up keeps statuses and completions in step if and only if no item it touches was completed by then |
| Redoing.SurfaceIsSafeExactly | crates/application/src/bin/worker.rs:422-494 | a late commit is safe in the sense of the theorems if and only if it keeps statuses and completions in step and leaves its worker nothing to do to a completed item |
| Redoing.PendingIsRedone | crates/application/src/bin/worker.rs:103-204 | a worker that still has a completed item to do, from its snapshot or its outstanding batch, puts the item's status and completions out of step |
| Affinity.ExclusiveExactly | crates/application/src/bin/worker.rs:103-122 | items complete at most once on every trace safe for their run if and only if all workers have affinity or there is only one |
| Affinity.StrictExactly | crates/application/src/bin/worker.rs:103-122 | items keep their agents on every trace if and only if all workers have affinity |
| Affinity.LooseWorkerTakes | crates/application/src/bin/worker.rs:103-122 | a trace on which a worker without affinity takes an item dealt to somebody else, which the rebuilt row does not show |
| ProtocolSoundness.StepSound | crates/application/src/harness.rs:374-400 | every step keeps all items at rest, for any workers and any retries |
| ProtocolSoundness.NoItemIsEverRunning | crates/application/src/harness.rs:374-400 | in every reachable log streams are numbered 1..n and no replay shows an item "running" |
| ReachableLogs.LoadShowsRunningItemExactly | crates/application/src/harness.rs:374-400 | a load of a reachable log shows an item "running" if and only if its latest event is a start; never, if no clock goes back while it stamps one batch |
| ReachableLogs.StepTidy | crates/application/src/bin/worker.rs:87-254 | every step keeps items with one run, starts first, and chunks positive |
| ReachableLogs.ItemReplaysAgree | crates/infra/src/replay.rs:93-226 | in every reachable log, where a run's timestamps follow its revisions, worker, orchestrator and rebuild hold the same items of the run |
| ReachableLogs.LoadedItemsAgree | crates/infra/src/replay.rs:93-226 | in every reachable log and for any timestamps, the worker's replay and the rebuild of one load give each run the same items with the same statuses, and the orchestrator knows the same items |
| ReachableRows.LoadedRowsAgree | crates/infra/src/replay.rs:93-226 | in every reachable log, on any load, each item of a run has a rebuilt row of that run in the worker's status and with an agent; the worker's if and only if the last start since the item's last assignment, if any, is by the agent it was assigned to, and always with affinity everywhere |
| ReachableRows.TickWritesRebuiltRows | crates/application/src/bin/worker.rs:508-540 | with affinity everywhere, a tick on any reachable log leaves for every item it touched exactly the rebuilt row |
| ReachableLogs.LoadAgreesWithStreamExactly | crates/application/src/orchestrator.rs:297-376 | a load shows an item in the orchestrator's status if and only if the item's latest event by time sets that status |
| ReachableLogs.AccountsAgree | crates/infra/src/replay.rs:42-92 | in every reachable log and for any load, worker and history hold the same totals, at least the sum of the completed items' efforts, and the rebuilt row is short of exactly the work the load puts before the run's start |
| StaleRetry.StaleRetryCompletesTwice | crates/application/src/orchestrator.rs:148-210 | a concrete trace, with every load and late commit safe, in which an item is completed twice |
| LateBatch.LateBatchCompletesTwice | crates/application/src/bin/worker.rs:496-506 | a concrete trace, with every retry atomic and no late commit, in which an item is completed twice |
| LateCommit.LateCommitCompletesTwice | crates/application/src/bin/worker.rs:422-494 | a concrete trace without retries, with every load safe, in which an item is completed twice |
| Clocks.PauseGoesUnseen | crates/application/src/orchestrator.rs:228-240 | a concrete trace with a committed pause that the orchestrator sees and no load shows, and on which the worker then executes the run's item |
| Clocks.WorkGoesUncounted | crates/infra/src/replay.rs:42-55 | a concrete trace and load on which the worker's replay holds all effort of a run and the rebuilt row none |
| AtomicControl.AtomicRetriesAreSafe | crates/application/src/orchestrator.rs:148-210 | retries of a run whose stream has not moved since their decision undo nothing |
| AtomicControl.TimelyLoadsAreSafe | crates/infra/src/persistence.rs:86-96 | if no accepted batch of a run is older than the run's stream, no load leads a worker to redo an item of it |
| AtomicControl.AtomicControlIsSafe | crates/application/src/orchestrator.rs:148-210 | with atomic retries of a run, and safe loads and late commits of it: at most one completion per item, closed runs fully and finally completed; and on every trace, agents fixed under affinity |
| AtomicControl.TimelyControlIsSafe | crates/application/src/orchestrator.rs:148-210 | with atomic retries, safe late commits and no batch of the run older than its stream: at most one completion per item, shown as such by every load |
| Halting.StepStaysHalted | crates/application/src/bin/worker.rs:355-416 | no step but an accepted start, resume or retry lets a load show a halted run as running |
| Halting.OnlyRestartsSetRunning | crates/application/src/bin/worker.rs:355-416 | nothing else ever appends an event that sets a run running |
| Halting.HaltTakesHoldExactly | crates/application/src/orchestrator.rs:228-240 | a pause or cancellation halts a running run if and only if its time is not before that of the event that set it running |
| Halting.StepDisarms | crates/application/src/bin/worker.rs:89-92 | while a run is halted, no step gives any workers another batch to commit to it, and each commit uses one up |
| Halting.HaltedRunDrains | crates/application/src/bin/worker.rs:89-254 | once a run is halted, and until an event that sets it running is appended, any workers commit to it at most one more batch each, and one for each of theirs that was given up, each of at most 3m+1 events; and no load shows it running |
| RunClosings.StepClosings | crates/application/src/bin/worker.rs:206-218 | only a commit of a worker closes a run, and no more than once |
| RunClosings.ClosedPerWorker | crates/application/src/bin/worker.rs:206-218 | a run whose first closing takes hold, and that is not set running again, gets no more closings than there are workers and batches that were given up, and exactly one if no other worker holds a batch or a running snapshot of it |
| RunClosings.ClosesOnceMore | crates/application/src/bin/worker.rs:206-218 | a worker that holds a running snapshot with all items done goes on to close the run once more, whatever has become of it |
| Deadlock.FailureDeadlocks | crates/application/src/orchestrator.rs:347-356 | a run the orchestrator has running is halted for the workers if and only if a failed item is its last status event, where its timestamps follow its revisions |
| Deadlock.RetryThenResume | crates/application/src/orchestrator.rs:154-160 | a call of retry and one of resume on such a run reply "unchanged", or that a read failed, and write nothing |
| Deadlock.DeadlockHolds | crates/application/src/orchestrator.rs:224-227 | over every trace, nothing is added to such a run's stream except by a change to another status than running, or by an operation decided on an older read |
| Refinement.PassPlays | crates/application/src/bin/worker.rs:57-261 | the deeds of a pass, whatever the others do in between, are a sequence of protocol steps of that worker: begin, then build, attempts and settle for one run after the other, then the end of the tick |
| Refinement.RunOncePlays | crates/application/src/bin/worker.rs:57-261 | a call of the worker's pass, in any weather, is such a play |
| Refinement.PlaysAreTraces | crates/application/src/bin/worker.rs:57-261 | if the others move by protocol steps too, every trace that ends where a play begins goes on through all of its worlds |
| Refinement.StartPlays | crates/application/src/orchestrator.rs:75-131 | a start of a new run is a read, the moves of others and at most one start step |
| Refinement.RetryPlays | crates/application/src/orchestrator.rs:148-210 | a retry, whatever happens around it, is a read, the moves of others and at most one retry step |
| Refinement.StatusPlays | crates/application/src/orchestrator.rs:212-244 | a status change, whatever happens around it, is a read, the moves of others and at most one status step |
| Progress.TickTakes | crates/application/src/bin/worker.rs:102-122 | a tick takes min(m, waiting) items and closes the run exactly when none is left |
| Progress.TickAdvances | crates/application/src/bin/worker.rs:89-254 | what one tick does to a run's waiting items, status and stream, whatever is written to other runs before, during and after it |
| Progress.StartedIsUnderway | crates/application/src/orchestrator.rs:75-131 | a start brings a run to where the ticks begin |
| Progress.FinishesOnTime | crates/application/src/bin/worker.rs:89-254 | n items at m per tick: completed after exactly ceil(n/m) ticks, with one RunCompleted and final revision 4n+2, and quiet afterwards, whatever is written to other runs meanwhile |
| StatusHistory.TickKeepsStatusExactly | crates/infra/src/replay.rs:144-200 | after a tick of any size the rebuilt and the worker's status still agree if and only if its last job does not succeed after another failed |
| StatusHistory.ControlKeepsStep | crates/application/src/orchestrator.rs:75-244 | control operations keep the two statuses equal |
| StatusHistory.StatusesAgreeThroughout | crates/infra/src/replay.rs:56-240 | over every history of one-item ticks and atomic control operations the two statuses are equal at every log |
| StatusHistory.LoadedStatuses | crates/infra/src/persistence.rs:136-145 | a load shows both statuses as they are where the run's timestamps follow its revisions |
| Projections.UpdateRunProjections | crates/application/src/bin/worker.rs:508-553 | the rows a tick writes: every item row in order and then the run row, each field from memory, unless the workspace is unknown, up to the first write that fails |
| Projections.LastRowWritten | crates/application/src/bin/worker.rs:300-325 | an item's row is in the tick's run, with the status of the item's last event, and with the agent that event gives or else the one in memory; blockers are not written |
| Projections.ProjectedRow | crates/application/src/bin/worker.rs:508-540 | after a tick every touched item's row is the run's, completed or failed, with the agent the item was loaded with |
| Projections.ProjectedRowIsRebuilt | crates/infra/src/replay.rs:93-226 | that row is the rebuilt row, whole, if and only if the item had not been started away from the agent it was last assigned to |
| Projections.ProjectedRunRow | crates/application/src/bin/worker.rs:541-553 | the run row written after a tick has the rebuilt row's workspace, and the rebuilt row the tick's time |
| Projections.IncrementalAgainstRebuild | crates/application/src/bin/worker.rs:508-553 | touched item rows have their rebuilt status, untouched ones stay, projected totals are the rebuilt ones short of the batch's chunks and never below the completed items' efforts |
| WorkerLoop.Worker.WorkOnRun | crates/application/src/bin/worker.rs:89-254 | advance, append with retries in any weather, then project as far as the database lets it: rows are written only for a batch that stands in the log |
| WorkerLoop.Worker.LoadStates | crates/application/src/bin/worker.rs:57-61 | what a worker holds after loading is the replay of some load of the log, and it misses no run it could work on |
| WorkerLoop.Worker.RunOnce | crates/application/src/bin/worker.rs:57-261 | one pass, in any weather: one deed after the other, for each run it could work on unless that left it nothing to do or to close, each the legal, maximal batch of the run and the trail of its appends; undisturbed, one tick of every run, for any iteration order and any timestamps |

## Left out

- ProtocolSafety.CompletedAtMostOnce: asks that the retries, loads and late commits of the run are safe and that no two workers can take the same item, because without any one of these it is false (StaleRetry.StaleRetryCompletesTwice, LateBatch.LateBatchCompletesTwice, LateCommit.LateCommitCompletesTwice, Affinity.ExclusiveExactly).
- StatusHistory.StatusesAgreeThroughout: covers one-item ticks and control operations that decide on the log they append to, on runs whose timestamps follow their revisions; with larger ticks it fails exactly as StatusHistory.TickKeepsStatusExactly says, and on any other log exactly as Agreement.RebuiltStatusAgrees says.
- Projections.IncrementalAgainstRebuild: compares the rows with a rebuild in commit order, after a load that shows the run as the log has it; LoadOrder.LoadOrderIsHarmless says when a load does.
- WorkerLoop.Worker.RunOnce: a load that fails is left out; the loop then waits, reconnects and starts over, and nothing is written.
- Progress.FinishesOnTime: assumes that every execution succeeds, that nobody else writes to the run and that the worker's clock does not go back, since otherwise the run need not finish.
- 32-bit wrap-around of revisions and efforts, and floating-point rounding of costs.
- Clock readings are parameters of the methods, one per batch; in the protocol every event may carry any time. Actors of control events, correlation and causation identifiers and metadata are not kept, and the summary text of RunCompleted is kept as its count.
- The names of event types, JSON payloads, SQL, Redis and connection handling, and the queries that only read projections.
- The API's own row updates (`sync_projection_status`, `upsert_run_projection`), routes, the WebSocket gateway and all user interfaces: none of them writes to the log.
- The executors, which are an arbitrary outcome per item here; prompts, environment parsing and deployment scripts.
- `CostTracker`, `AgentRunState::apply` and `replan_on_failure`: the run protocol does not call them. Agent profiles and workspaces: they append events about no run, to streams of their own, and that is how they appear here.
