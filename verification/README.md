# MinRender, modelled and proved in Dafny

MinRender is a render farm without a server: nodes find each other, elect a leader, and the leader
splits jobs into chunks of frames and hands them out. This project models the parts of it that have
to be right for a render to be right, and proves what they promise, over every input and every run.

**The leader.** `FarmTables` holds the jobs and chunks tables as one state machine: seventeen steps,
from submission to deletion, each atomic and total. `TableInvariants` is what every reachable state
satisfies. On that rest the whole-run results: `EditFence` (renders from before an edit can never
touch the edited job again), `ExactlyOnce` (repeated reports take effect once), `JobLifecycle` (a job
that is over has no work left), `Accounting` (retry budgets, blacklists, and the fate of every
assignment), `DisplayOrder` (drag-to-reorder is a list splice), `FrameTracking` (per-frame progress).
`StepLaws` tells each step in the columns of the tables themselves.
`DatabaseManager`, `DispatchManager`, `FailureTracker` and `MonitorApp` are the objects of the
program, with its loops and queues; their methods are proved to perform exactly those steps.

**The worker.** `RenderCoordinator` and `Delivery` model the queue, the active render and the
deliveries held for retry, and `RenderLaws` tells what they do in seconds and places; `ReportLink` the buffered report delivery that `MonitorApp` implements.
`ReportDelivery` puts both ends together: workers' buffers, a network that loses posts and answers, the
leader's fence and queues, and the tables; `RenderFarm` adds every node's coordinator: what the tables
call completed has been delivered.

**Algorithms.** `ChunkPlan`, `ManifestOverlay` (baking a template and reopening it for editing),
`TokenSubstitution`, `Sha256` over `Words` (with `Sha256Laws` on its building blocks), `LeaderElection`, `FrameCounter` (two agent threads
sharing a counter), `IpcFraming`. `Ordering` and `Wrappers` are shared vocabulary.

Where a promise does not hold of the code as written, the code is kept, a concrete or general
counterexample is proved, and the exact condition under which the promise does hold is proved as an
if-and-only-if. The places are: a manual reassignment that does not re-stamp its chunk
(`EditFence.FenceLeaks`, `EditFence.InertStep`), an unguarded revert (`ExactlyOnce.LateRevertLandsTwice`, `ExactlyOnce.SettledStep`,
`JobLifecycle.QuietReopenings`, `JobLifecycle.OverStep`), work sent back by hand and budget edits
(`Accounting.Overdrafts`, `Accounting.BudgetStep`), bursts of failures
across a window (`FailureTracker.SplitBurstEscapes`, `FailureTracker.SuspendedIff`), a directory listing that comes back short
(`Delivery.SuccessDeliversAllIff`), a staging
directory that two dispatches of one chunk share (`RenderCoordinator.SharedStagingLoses`,
`RenderCoordinator.StagingKept`), adjacent positional flags
(`ManifestOverlay.AdjacentPositionalsShift`), a timeout inside a message header
(`IpcFraming.TimeoutInHeaderLosesStep`, `IpcFraming.ReceivedIffHeadersWhole`), and 32-bit wrap of frame numbers
(`FrameCounter.ExactIffNoWrap`).

Clocks, network outcomes, file-system outcomes and partial reads and writes are parameters of the
steps they affect. Rows that tie on every ORDER BY column are ordered by row number, which SQLite
leaves open. `dafny verify dfyconfig.toml` checks everything.

The table below names the main results and the methods with loops or several steps; the handlers that
carry out a single update have their contracts in the files.

## Model

| member | source | states |
|---|---|---|
| `ChunkPlan.ChunksTile` | src/core/job_types.h:206-220 | every frame of a job lies in exactly one chunk, every chunk but the last has the full size, and the chunks come in frame order |
| `ChunkPlan.ComputeChunks` | src/core/job_types.h:206-220 | the loop yields that tiling, and no chunk at all for an empty range or a size below one |
| `TableInvariants.StepKeepsInv` | src/monitor/database_manager.cpp:586-1216 | every operation of the leader keeps: chunk ranges of a job pairwise disjoint, frame lists sorted, duplicate-free and inside their chunk, blacklists duplicate-free, pending and stopped chunks without assignee, assigned ones with one, and no chunk stamped ahead of its job |
| `TableInvariants.RunKeepsInv` | src/monitor/database_manager.cpp:586-1216 | the same over every run |
| `TableInvariants.RangeNamesRow` | src/monitor/database_manager.cpp:609-640 | an UPDATE addressed by job and frame range reaches at most one row |
| `TableInvariants.CopiedRowsInsertable` | src/monitor/dispatch_manager.cpp:691-778 | the rows of a resubmitted copy are disjoint and well formed, whatever state the source was in |
| `StepLaws.CompleteLaw` | src/monitor/database_manager.cpp:609-640 | a completion report completes the row of its job and range that is in flight, with the node and under the stamp that it names, and changes nothing else |
| `StepLaws.FailLaw` | src/monitor/database_manager.cpp:642-708 | a failure report of the row's node under its stamp counts one, lists the node, and sends the chunk back to the pool while the job's limit - three when the manifest does not say - is not reached |
| `StepLaws.FramesLaw` | src/monitor/database_manager.cpp:1106-1216 | a frame report under the job's epoch, or without one, adds exactly the frames that lie in each chunk |
| `StepLaws.AssignLaw` | src/monitor/database_manager.cpp:543-607 | a chunk can be assigned only from the pool, in an active job, to a node with every required tag that is not on its blacklist; it is then stamped with the job's epoch |
| `StepLaws.RevertLaw` | src/monitor/database_manager.cpp:820-838 | back to the pool, whatever the state |
| `StepLaws.ReclaimLaw` | src/monitor/database_manager.cpp:840-860 | exactly what is in flight at the node |
| `StepLaws.StopLaw` | src/monitor/database_manager.cpp:710-746 | exactly pending and assigned chunks are stopped: nobody's, and not in the pool |
| `StepLaws.ReassignLaw` | src/monitor/database_manager.cpp:1021-1067 | what reassignment to the pool and to a node do to chunk and job |
| `StepLaws.RetryLaw` | src/monitor/database_manager.cpp:992-1019 | failed chunks are back in the pool with counter and frames cleared and the blacklist kept |
| `StepLaws.RequeueLaw` | src/monitor/database_manager.cpp:896-914 | all chunks are as new but for their stamps |
| `StepLaws.DeleteLaw` | src/monitor/database_manager.cpp:359-373 | the job and exactly its chunks go |
| `StepLaws.SubmitLaw` | src/monitor/dispatch_manager.cpp:98-133 | an active job at epoch 0 with pending chunks that have exactly its frames |
| `StepLaws.ResubmitLaw` | src/monitor/dispatch_manager.cpp:691-778 | one new row for each of the source's, completed exactly if the source had that range completed |
| `StepLaws.EditLaw` | src/monitor/monitor_app.cpp:1450-1539 | what the three kinds of edit do to every column of job and chunks |
| `EditFence.FenceUpIff` | src/monitor/database_manager.cpp:748-782 | a job's chunks in flight all carry its current epoch if and only if every outdated report for the job is without effect |
| `EditFence.InertIff` | src/monitor/database_manager.cpp:748-782 | one outdated report is without effect - as completion, failure and frame report - if and only if no chunk takes it for current |
| `EditFence.FenceStep` | src/monitor/database_manager.cpp:586-1067 | an operation keeps a job's fence up exactly when it is not a manual reassignment, to a named node, of a chunk of that job last stamped before the job's latest edit |
| `EditFence.RunKeepsFence` | src/monitor/database_manager.cpp:586-1067 | the same over every run, whatever is reassigned in other jobs |
| `EditFence.InertStep` | src/monitor/database_manager.cpp:586-1067 | for one outdated report: an operation other than the deletion of its job leaves it without effect exactly when it does not hand the report's own chunk, still under the report's stamp, back by hand to the report's own node |
| `EditFence.EditRaisesFence` | src/monitor/monitor_app.cpp:1482-1505 | a restart or start-over edit puts the job's fence up from every well-formed state, in which it may well be down |
| `EditFence.EpochGrowsOverRun` | src/monitor/database_manager.cpp:802-818 | until a job is deleted its epoch never goes back, over any run |
| `EditFence.FenceHolds` | src/monitor/monitor_app.cpp:1482-1505 | from every well-formed state, however it was reached: after a restart or start-over edit, whatever then happens to any job, a report stamped before the edit never again changes anything - until its job is deleted or its own chunk is handed back to its own node by hand under the old stamp |
| `EditFence.CurrentReportLands` | src/monitor/database_manager.cpp:609-640 | the fence does not shut out the new version: what the assignee of a chunk reports under its own stamp completes that chunk and touches no other |
| `EditFence.StaleTargetLeaks` | src/monitor/database_manager.cpp:1048-1060 | the exception is real in every state: after such a reassignment the outdated report of the named node completes the chunk |
| `EditFence.FenceLeaks` | src/monitor/database_manager.cpp:1021-1067 | and it is reachable: a five-step run from the empty database after which an outdated report still takes effect |
| `ExactlyOnce.LandingSettles` | src/monitor/database_manager.cpp:609-708 | from every well-formed state, a completion, or a failure from an identified node, that takes effect leaves the database past that report |
| `ExactlyOnce.SettledIsInert` | src/monitor/database_manager.cpp:609-708 | delivering a report again to a database that is past it changes nothing, blacklist and retry counter included |
| `ExactlyOnce.SettledStep` | src/monitor/database_manager.cpp:586-1067 | an operation leaves the database past a report exactly when it is none of a listed few, all of them about the report's own job: its deletion; once the report is outdated, its chunk handed back to its node by hand; before that, requeue-all, start-over with the same chunk for an unstamped report, a revert that finds the chunk no longer assigned, a manual return to the node that failed it |
| `ExactlyOnce.RedeliveryIsHarmless` | src/monitor/monitor_app.cpp:2620-2723 | once a report has landed, re-delivering it at any later point of any run without those operations changes nothing |
| `ExactlyOnce.LandingsBounded` | src/monitor/monitor_app.cpp:2620-2723 | over any run whatever, from any well-formed state, however often and wherever a report is delivered: between two deliveries that take effect lies one of those operations, so deliveries that take effect are at most one more than those operations - and no more than them when the database was already past the report |
| `ExactlyOnce.LandsExactlyOnce` | src/monitor/database_manager.cpp:609-708 | a current report whose chunk nothing else touches lands the first time it is delivered and never again, however often it is |
| `ExactlyOnce.LateRevertLandsTwice` | src/monitor/database_manager.cpp:820-838 | the unguarded revert is a real exception: from every state with a chunk in flight whose node could be given it again, a four-step run in which the same completion lands twice |
| `JobLifecycle.OverStep` | src/monitor/database_manager.cpp:586-1067 | an operation keeps "a completed or failed job has no pending or assigned chunk" exactly when it is neither a revert that reaches such a job nor a manual reassignment of one of its chunks to a named node |
| `JobLifecycle.RunKeepsClosed` | src/monitor/dispatch_manager.cpp:277-293 | the same over every run without those two |
| `JobLifecycle.QuietReopenings` | src/monitor/database_manager.cpp:820-838 | both exceptions are real: a four-step run from the empty database to a job that is over, which a revert, and a manual reassignment to a node, leave with work in it |
| `JobLifecycle.VerdictIsExact` | src/monitor/database_manager.cpp:862-894 | an active job stays active while some chunk is pending or assigned; otherwise it is completed if and only if every chunk is completed or stopped, else failed |
| `Accounting.FailedRowIsCurrent` | src/monitor/database_manager.cpp:642-708 | a failure report changes the one row it is current for - blacklist and counter together - or none |
| `Accounting.RetriesCountFailures` | src/monitor/database_manager.cpp:642-708 | over any run, the retry counter of a row equals the failures accepted for it since its counter was last reset |
| `Accounting.FailedChunkIsTriedAgain` | src/monitor/database_manager.cpp:642-708 | a chunk that has failed less often than its job allows since its counter was last reset can, after one more failure, be given to any node with the tags that is not on its blacklist |
| `Accounting.BudgetStep` | src/monitor/database_manager.cpp:642-1067 | an operation keeps retry counts within max(1, max_retries), with one to spare for chunks that can still run, exactly when it neither sends an exhausted chunk back to work nor lowers the limit below what a kept chunk has used |
| `Accounting.RunKeepsBudgets` | src/monitor/database_manager.cpp:642-708 | so the retry bound holds over every run without such steps |
| `Accounting.Overdrafts` | src/monitor/database_manager.cpp:820-838 | the exceptions are real: a three-step run from the empty database to a chunk that has used up its budget, which a revert and either manual reassignment send back to work |
| `Accounting.BlacklistOnlyGrows` | src/monitor/database_manager.cpp:543-574 | until its job is requeued whole, a chunk's blacklist only grows over any run, and no node on it is ever eligible for the chunk again |
| `Accounting.FailureBlacklists` | src/monitor/database_manager.cpp:656-685 | an identified node whose failure is accepted is on the blacklist |
| `Accounting.AssignmentsBalance` | src/monitor/database_manager.cpp:586-1067 | for every surviving row over every run: assignments made = accepted completions + accepted failures + withdrawals + (1 if assigned now) |
| `DisplayOrder.MoveIsSplice` | src/monitor/database_manager.cpp:282-357 | moving a job takes it out of the whole displayed list and puts it back right before or after the target; no two other jobs of any priority group change places |
| `DisplayOrder.MovedNextToTarget` | src/monitor/database_manager.cpp:282-357 | in the list shown afterwards the job stands right before the target, or right after it; it has the target's priority, and no other priority has changed |
| `DisplayOrder.PlaceDecides` | src/monitor/database_manager.cpp:338-347 | the renumbered keys of the target's group strictly increase with the new places |
| `DisplayOrder.OthersKeepOrder` | src/monitor/database_manager.cpp:282-357 | any two jobs other than the moved one compare after the move as before it, in and across groups |
| `FrameTracking.FramesAreUnion` | src/monitor/database_manager.cpp:1150-1216 | recording a batch leaves the one sorted duplicate-free list of the frames known before and those of the batch inside the chunk, and only that list |
| `FrameTracking.BatchesMerge` | src/monitor/database_manager.cpp:1150-1216 | two batches recorded one after the other are one batch |
| `FrameTracking.BatchesCommute` | src/monitor/database_manager.cpp:1106-1216 | neither the order of frame reports nor a repeat of one makes a difference |
| `FrameTracking.BatchIsFold` | src/monitor/database_manager.cpp:1106-1216 | the batch update equals the single-frame update applied frame by frame |
| `FrameTracking.FrameHasOneChunk` | src/monitor/database_manager.cpp:1106-1148 | in every reachable state a frame of a job lies in at most one of its chunks |
| `DatabaseManager.NextFollowsDisplay` | src/monitor/database_manager.cpp:183-185 | no job with a chunk for the node stands before the dispatched chunk's job in the list that is shown |
| `DatabaseManager.ReprioritizingIsReorder` | src/monitor/database_manager.cpp:262-280 | a priority change is a reordering of the state machine: it touches neither chunks, status nor epoch |
| `DatabaseManager.Database.MoveJob` | src/monitor/database_manager.cpp:282-357 | the snapshot, splice and renumber loop produces the keys that MoveIsSplice speaks of; refused for itself or an unknown job |
| `DatabaseManager.MoveIsReorder` | src/monitor/database_manager.cpp:282-357 | a move changes priority and sort keys only |
| `DatabaseManager.Database.InsertChunks` | src/monitor/database_manager.cpp:377-403 | the loop adds one fresh pending row per range under ids never used before |
| `DatabaseManager.Database.FindNextPendingChunkForNode` | src/monitor/database_manager.cpp:499-584 | the nested scan with its early exits returns the least eligible chunk: of the lowest priority number, then the lowest sort key, then the earliest submission, then the lowest first frame; it returns nothing if and only if no chunk is eligible |
| `DatabaseManager.ListedInOrder` | src/monitor/database_manager.cpp:183-185 | the list of jobs is in that same order of columns |
| `DatabaseManager.Database.FirstOpenRow` | src/monitor/database_manager.cpp:543-574 | the inner scan returns the job's first pending chunk not blacklisted for the node, if there is one |
| `DatabaseManager.Database.IsChunkCurrent` | src/monitor/database_manager.cpp:748-773 | the fence pre-check agrees with what the update itself would accept |
| `DatabaseManager.Database.FailChunk` | src/monitor/database_manager.cpp:642-708 | for any retry limit, the fence, blacklist and counter statements together are one failure, taken exactly when the report is current: one more is counted, and the chunk has failed for good if and only if that reaches the limit - otherwise it is back in the pool, nobody's |
| `DatabaseManager.FailedWithinOwnLimit` | src/monitor/dispatch_manager.cpp:181-212 | under the job's own limit that is the failure step of the state machine |
| `DatabaseManager.Database.GetJobCompletionState` | src/monitor/database_manager.cpp:862-894 | no verdict while anything is pending or assigned; failed if and only if some chunk failed |
| `DatabaseManager.Database.RebuildChunks` | src/monitor/database_manager.cpp:973-990 | the job's rows are replaced by fresh ones under new ids; other jobs are untouched |
| `DatabaseManager.Database.RetryFailedChunks` | src/monitor/database_manager.cpp:992-1019 | failed chunks return with counter and frames cleared but blacklist kept; the job is reactivated exactly when there was one |
| `DatabaseManager.Database.ReassignChunk` | src/monitor/database_manager.cpp:1021-1067 | to the pool it reopens a job that is over; to a node it does not re-stamp the chunk and leaves the job's state |
| `DatabaseManager.Database.MarkChunksCompleted` | src/monitor/database_manager.cpp:1069-1102 | the loop completes exactly the rows with one of the given ranges |
| `DatabaseManager.Database.AddCompletedFrame` | src/monitor/database_manager.cpp:1106-1148 | records the frame in the one chunk that has it, keeping the list sorted; nothing happens when none has |
| `DatabaseManager.Database.AddCompletedFramesBatch` | src/monitor/database_manager.cpp:1150-1216 | load, place and write back amount to recording the set of frames |
| `FailureTracker.CountsLatest` | src/monitor/node_failure_tracker.h:23-42 | over any history of failures, the counter covers the latest ones, all within 300 s of the first of them; a suspended node had five such in a row |
| `FailureTracker.SuspendedIff` | src/monitor/node_failure_tracker.h:23-42 | over any history, a node is suspended if and only if five failures in a row from the start of a counting window fall into that window; windows start at the first failure and at the first one past the end of the window before |
| `FailureTracker.SplitBurstEscapes` | src/monitor/node_failure_tracker.h:23-42 | not every burst suspends: five failures within the window that straddle the end of an earlier one are split |
| `FailureTracker.Tracker.RecordFailure` | src/monitor/node_failure_tracker.h:23-42 | the in-place update keeps the record equal to the fold over the node's history |
| `FailureTracker.Tracker.HoldsBack` | src/monitor/node_failure_tracker.h:44-58 | in seconds: suspended if and only if five failures in a row from the start of a window lie within five minutes; in cooldown for half a minute after the last failure, unless suspended |
| `DispatchManager.Dispatcher.ReceiveCompletion` | src/core/http_server.cpp:654-689 | a report is queued if and only if it is current; otherwise it is answered as stale |
| `DispatchManager.Dispatcher.ReceiveFailure` | src/core/http_server.cpp:692-726 | the same for failures |
| `DispatchManager.Dispatcher.ReceiveFrames` | src/core/http_server.cpp:611-652 | one queue entry per frame, in order, or none when the epoch is not current |
| `DispatchManager.Dispatcher.SubmitJob` | src/monitor/dispatch_manager.cpp:98-133 | job row and tiled chunks together are one submission step |
| `DispatchManager.Dispatcher.ResubmitIncomplete` | src/monitor/dispatch_manager.cpp:691-778 | a copy with the source's ranges in which exactly those already rendered are completed; refused for a finished source |
| `DispatchManager.Dispatcher.ProcessReports` | src/monitor/dispatch_manager.cpp:153-251 | draining the queues is the run of all completions, then failures, then reverts, then frames, each in order of arrival; every queue ends empty |
| `DispatchManager.Dispatcher.DrainFrames` | src/monitor/dispatch_manager.cpp:231-250 | grouping frames by job and epoch and dropping outdated groups whole has the effect of applying every report on its own |
| `DispatchManager.FrameStepsAdmit` | src/monitor/dispatch_manager.cpp:231-250 | one-at-a-time frame reports record exactly what the fence admits |
| `DispatchManager.Dispatcher.ApplyFailure` | src/monitor/dispatch_manager.cpp:181-212 | the retry limit is the job's, or three when its manifest does not parse; only an identified node is counted against |
| `DispatchManager.Dispatcher.DetectDeadWorkers` | src/monitor/dispatch_manager.cpp:253-275 | exactly the chunks in flight at a node with a remote record that is dead or needs attention are back in the pool |
| `DispatchManager.Dispatcher.CheckJobCompletions` | src/monitor/dispatch_manager.cpp:277-293 | every active job with nothing pending or in flight is over, broken if a chunk of it has failed for good and finished if none has; no other job and no chunk changes |
| `DispatchManager.Dispatcher.AssignWork` | src/monitor/dispatch_manager.cpp:295-521 | one pass: at most one chunk per node and one node per chunk, each eligible beforehand and ahead of all that is left for its node; sent only to nodes that are alive, not stopped, not rendering, healthy, ready, neither suspended nor in cooldown, and not given work in the last 15 seconds without a sign of it since; work-conserving - such a node that can be sent to has no eligible chunk left; and the database goes through a run of assign and revert steps |
| `DispatchManager.NotServedTwice` | src/monitor/dispatch_manager.cpp:310-349 | of two passes at most 15 seconds apart, the second sends nothing to a node that the first one served and whose first record still reads alive and not rendering |
| `DispatchManager.EntriesEnd` | src/monitor/dispatch_manager.cpp:310-334 | no entry outlives 15 seconds, or a first record that shows its node rendering or dead, unless the node is served again |
| `DispatchManager.Dispatcher.ServePeer` | src/monitor/dispatch_manager.cpp:336-521 | one peer's turn, keeping what the pass has established |
| `DispatchManager.Dispatcher.AssignAndSend` | src/monitor/dispatch_manager.cpp:380-425 | a chunk that cannot be sent is back in the pool with only the stamp changed |
| `DispatchManager.AssignThenRevert` | src/monitor/dispatch_manager.cpp:404-424 | assigning and reverting a pending chunk leaves the database as it was but for the stamp |
| `DispatchManager.EligibleOnlyShrinks` | src/monitor/dispatch_manager.cpp:336-521 | during a pass nothing becomes eligible that was not, and only what was sent stops being so |
| `ReportLink.AnsweredPrefix` | src/monitor/monitor_app.cpp:2649-2710 | the posts before the first unanswered one, no more and no fewer |
| `ReportLink.FlushDelivers` | src/monitor/monitor_app.cpp:2620-2723 | a flush delivers the reports before the first POST without an answer, and that one if only its answer was lost; that one and all after it stay buffered; a stale verdict is an answer |
| `ReportLink.EventKeepsOrder` | src/monitor/monitor_app.cpp:2620-2723 | making a report or flushing the buffer keeps: what the leader has received is the made reports in order with at most immediate repeats, and the buffer is the rest |
| `ReportLink.NothingIsLost` | src/monitor/monitor_app.cpp:2620-2723 | at-least-once delivery over any history of reports and flushes, under any pattern of lost posts and lost answers |
| `ReportLink.StutterHasAll` | src/monitor/monitor_app.cpp:2620-2723 | such a received list has every report of the prefix and nothing else |
| `MonitorApp.App.ApplyEditLocally` | src/monitor/monitor_app.cpp:1450-1539 | priority, manifest, epoch, chunks and state together are one edit step, refused on a bad manifest, a foreign job id or an unknown job |
| `MonitorApp.App.RestartJob` | src/monitor/monitor_app.cpp:1482-1505 | the epoch grows before anything is withdrawn or replaced, and the job is active again |
| `MonitorApp.App.ReportCompletion` | src/monitor/monitor_app.cpp:464-513 | the leader applies its own report at once; a worker buffers it; an abandoned render is reported to nobody |
| `MonitorApp.App.ReportFrameCompletion` | src/monitor/monitor_app.cpp:517-532 | the same for a frame, through the epoch fence |
| `MonitorApp.App.FlushCompletionReports` | src/monitor/monitor_app.cpp:2620-2723 | whatever prefix is answered, the buffer afterwards is the unanswered rest in order, followed by what arrived meanwhile; nothing after the first failure is posted |
| `MonitorApp.App.FlushFrameReports` | src/monitor/monitor_app.cpp:2725-2813 | one post per job and epoch carrying exactly the batch's frames; the whole batch is kept unless every post was answered |
| `MonitorApp.FlushRefines` | src/monitor/monitor_app.cpp:2620-2723 | a flush overlapping with new reports is one step of that delivery history |
| `ReportDelivery.FlushIsLinkFlush` | src/monitor/monitor_app.cpp:2620-2723 | the flush of the whole system is that same step |
| `ReportDelivery.EveryReportArrives` | src/monitor/monitor_app.cpp:2620-2723 | end to end - buffers, lost posts and answers, the leader's fence, queues and drains, and any other operations in between: once buffers and queues are empty, every report made has taken effect since it was made, or there was a moment since when no chunk took it for current |
| `ReportDelivery.NoReportCountsTwice` | src/monitor/dispatch_manager.cpp:153-212 | and over any such history each report takes effect at most once more often than one of the operations listed for SettledStep was carried out |
| `ReportDelivery.UndisturbedReportLands` | src/monitor/monitor_app.cpp:2620-2723 | end to end, a report that was current when made, and whose chunk nothing else touches until everything is drained, has taken effect by then exactly once |
| `RenderFarm.CompletionWasDelivered` | src/monitor/monitor_app.cpp:464-513 | the whole farm - every node's coordinator, the leader's own included, the reports and the tables: whatever all nodes do, when the tables have been told of a completion, the reporting node's coordinator has been through a moment that delivered a dispatch with that job, range and epoch |
| `RenderFarm.SomeReportCompletes` | src/monitor/database_manager.cpp:609-640 | behind every completed chunk of any run from empty tables there is a completion report for its range, of its own job or, through resubmission, of one it was copied from |
| `RenderFarm.CompletedChunkWasDelivered` | src/monitor/monitor_app.cpp:464-513 | so every chunk that the tables call completed was delivered by some worker's coordinator before |
| `Delivery.SuccessDelivers` | src/monitor/render_coordinator.cpp:692-729 | a successful copy puts every listed file on the destination |
| `Delivery.SuccessDeliversAllIff` | src/monitor/render_coordinator.cpp:709-728 | all staged files are there after a success if and only if the directory listing, whose error code is not examined after the loop, named every one |
| `Delivery.RetriesConverge` | src/monitor/render_coordinator.cpp:731-745 | any sequence of partial copies followed by a full success leaves what one clean copy leaves |
| `Delivery.CopyStagingFiles` | src/monitor/render_coordinator.cpp:692-729 | the copy loop in any listing order: success if and only if nothing listed failed |
| `RenderCoordinator.StepCounts` | src/monitor/render_coordinator.cpp:31-268 | no event makes a dispatch appear or disappear, except the arrival of that dispatch |
| `RenderCoordinator.RunBalances` | src/monitor/render_coordinator.cpp:31-268 | after every event of any run, dispatches accepted = queued + active + held + reported + silently dropped, each counted |
| `RenderCoordinator.OneFate` | src/monitor/render_coordinator.cpp:31-268 | in any run from the start every accepted dispatch is in exactly one of those places, once |
| `RenderCoordinator.CompletedMeansDelivered` | src/monitor/render_coordinator.cpp:611-807 | in any run, every completion reported was reported in a moment of that run which was either the end of an unstaged render of that very dispatch, or an attempt to deliver that very dispatch - due, and not for a deleted job - that succeeded and put all files its listing named on the destination; no other moment reports one |
| `RenderCoordinator.AllFramesDelivered` | src/monitor/render_coordinator.cpp:611-807 | so in any run whose successful attempts had full listings, a staged chunk is reported completed only in a moment after which all its staged files are on the destination |
| `RenderCoordinator.RunMomentsLead` | src/monitor/render_coordinator.cpp:39-268 | the moments of a run - one per event, and one per held chunk that an update retries - lead from its first state to its last without a gap |
| `RenderCoordinator.StagingKept` | src/monitor/render_coordinator.cpp:731-745 | in one moment a staging directory keeps everything written to it exactly when no successful delivery out of it clears some of that away |
| `RenderCoordinator.WrittenFramesArrive` | src/monitor/render_coordinator.cpp:611-807 | over any run with full listings: when a staged chunk is reported completed, everything written to its staging directory since any earlier point is at its destination, unless an earlier delivery cleared the directory of it |
| `RenderCoordinator.SharedStagingLoses` | src/monitor/render_coordinator.cpp:471-489 | the exception is real, because the directory is named after job and range only: a run from the start, with full listings, in which the late delivery of an earlier dispatch takes a new frame to the old output and the new dispatch is reported completed without it |
| `RenderCoordinator.RunBoundsTries` | src/monitor/render_coordinator.h:162-164 | over any run no chunk is held through twenty failed retries: the twentieth settles it |
| `RenderLaws.RetryLaw` | src/monitor/render_coordinator.cpp:747-807 | in seconds: a held chunk of a deleted job is dropped, one tried less than 30 s ago is left alone, any other is tried; a success is reported completed, a failure failed once ten minutes have passed, and else it is held on |
| `RenderLaws.AttemptLaw` | src/monitor/render_coordinator.cpp:692-745 | file by file, what an attempt leaves at the output, in staging and elsewhere |
| `RenderLaws.FinishLaw` | src/monitor/render_coordinator.cpp:611-656 | what the agent's completion does to slot, held list, callbacks and files |
| `RenderLaws.WatchLaw` | src/monitor/render_coordinator.cpp:165-212 | a lost pipe ends the render when the process has died or after 30 s without return, and a pipe that returns resets the clock |
| `RenderLaws.BeginLaw` | src/monitor/render_coordinator.cpp:39-163 | an update begins with the first dispatch of the queue unless one was put back less than two seconds ago; staged exactly when staging is on, an output directory is named and the staging directory was made |
| `RenderLaws.WaitLaw` | src/monitor/render_coordinator.cpp:81-141 | without the agent a dispatch goes to the back of the queue, for ten seconds from the first time |
| `RenderLaws.PurgeLaw` | src/monitor/render_coordinator.cpp:256-268 | purging keeps exactly the dispatches of other jobs, at increasing places |
| `RenderCoordinator.Coordinator.Tick` | src/monitor/render_coordinator.cpp:39-213 | one update is: retry held deliveries, then watch the active render or begin the next |
| `RenderCoordinator.Coordinator.UpdatePendingDeliveries` | src/monitor/render_coordinator.cpp:747-807 | the erase-while-iterating loop settles or keeps each held chunk once, in order |
| `RenderCoordinator.Coordinator.RetryOne` | src/monitor/render_coordinator.cpp:755-806 | deleted job, not yet due, delivered, timed out or kept - in that order of precedence |
| `RenderCoordinator.Coordinator.WaitForAgent` | src/monitor/render_coordinator.cpp:81-141 | spawn once, requeue while waiting, give up after the timeout |
| `RenderCoordinator.Coordinator.WatchAgent` | src/monitor/render_coordinator.cpp:165-212 | a lost connection starts a grace period that ends with its return, the process's death, or time |
| `RenderCoordinator.Coordinator.OnChunkCompleted` | src/monitor/render_coordinator.cpp:611-656 | delivers, else holds the chunk and frees the slot without reporting |
| `RenderCoordinator.Coordinator.PurgeJob` | src/monitor/render_coordinator.cpp:256-268 | exactly the queued dispatches of the job are dropped; the others keep their order |
| `ManifestOverlay.BakeFlags` | src/monitor/template_manager.cpp:466-506 | the loop with its double skip keeps exactly the slots that are neither empty optional positionals nor the standalone flag before one |
| `ManifestOverlay.SlotsOfBake` | src/monitor/template_manager.cpp:466-506 | slot by slot: left out are exactly optional editable positionals that the form leaves blank and valueless fixed flags right before one; every other slot is there in order, under its name and mark, with the form's value or the template's |
| `ManifestOverlay.WalkIsEarliest` | src/ui/app_bridge.cpp:1913-1925 | if the manifest's names occur in order among the template's at all, the two-cursor walk places every entry, none later than any other placement |
| `ManifestOverlay.OverlayConsumesAll` | src/ui/app_bridge.cpp:1903-1925 | every entry a bake produced is consumed |
| `ManifestOverlay.OverlayIsExactIff` | src/ui/app_bridge.cpp:1903-1925 | every entry returns to the slot it was baked from if and only if no dropped slot has the name of the next kept one |
| `ManifestOverlay.WellSeparatedIsUnambiguous` | src/ui/app_bridge.cpp:1903-1912 | templates whose optional positionals follow a uniquely named standalone flag and precede no positional never fail that condition |
| `ManifestOverlay.OverlayRestoresForm` | src/ui/app_bridge.cpp:1946-1962 | then the editor shows every value in its own field and dropped fields empty |
| `ManifestOverlay.RoundTripIff` | src/monitor/template_manager.cpp:466-506 | and re-baking gives the same flags if and only if the first form had a value for every kept editable slot without a default |
| `ManifestOverlay.WalkBoth` | src/ui/app_bridge.cpp:1913-1925 | the cursor loop computes that walk and marks exactly the placed prefix as consumed |
| `ManifestOverlay.OverlayFlags` | src/ui/app_bridge.cpp:1913-1944 | salvage never disturbs the walk, matches no entry twice and leaves no named entry over while a slot of its name is free; on a baked manifest it does nothing |
| `ManifestOverlay.AdjacentPositionalsShift` | src/ui/app_bridge.cpp:1903-1925 | two positionals in a row, the first left empty: the value comes back one field early |
| `TokenSubstitution.Find` | src/monitor/render_coordinator.cpp:517-519 | the first occurrence at or after the cursor |
| `TokenSubstitution.ReplaceAll` | src/monitor/render_coordinator.cpp:515-524 | the in-place find-and-replace loop replaces each occurrence of the input, and never looks at what it put in |
| `TokenSubstitution.OtherTokenSurvives` | src/monitor/render_coordinator.cpp:511-549 | a pass for one token neither forms, breaks nor moves an occurrence of another |
| `TokenSubstitution.PassesAreOneScan` | src/monitor/render_coordinator.cpp:511-549 | three passes equal one left-to-right simultaneous substitution, for every text |
| `TokenSubstitution.SubstituteTokens` | src/monitor/render_coordinator.cpp:511-549 | the command line is that simultaneous substitution of the chunk's numbers, negative ones included; a token alone gives a numeral that reads as the first, or the last, frame |
| `TokenSubstitution.ScanOfText` | src/monitor/render_coordinator.cpp:511-549 | in any command line, text without braces stays, the token after it gives way to its own number, and so on with the rest |
| `TokenSubstitution.DecimalReads` | src/monitor/render_coordinator.cpp:519-521 | each number is written as the numeral, without leading zeros, that reads back as it |
| `Sha256.Transform` | src/core/sha256.cpp:28-63 | the in-place rounds compute section 6.2.2 of FIPS 180-4 on one block |
| `Sha256.FillSchedule` | src/core/sha256.cpp:30-43 | the filled array is the message schedule, although its sums are taken in another order |
| `Sha256.PackedIsBigEndian` | src/core/sha256.cpp:33-36 | shift-and-or reads four bytes as one big-endian number |
| `Sha256.PaddingIsMinimal` | src/core/sha256.cpp:83-92 | the padding is the shortest that meets section 5.1.1 (length congruent to 448 modulo 512 bits before the length field), and extends the message to whole blocks |
| `Sha256.PaddingIsInjective` | src/core/sha256.cpp:83-92 | below 2^61 bytes, messages with equal padding are equal |
| `Sha256.FillTail` | src/core/sha256.cpp:83-92 | the one- or two-block tail completes the whole blocks to exactly that padding |
| `Sha256.FoldOneMore` | src/core/sha256.cpp:77-96 | one more block is one more step of the fold |
| `Sha256.Digest` | src/core/sha256.cpp:67-96 | whole blocks in a loop plus tail equal the fold over the padded message, for every message below 2^61 bytes |
| `Sha256.AppendWord` | src/core/sha256.cpp:103-108 | shifting, masking and nibble look-up append the word's big-endian hex digits |
| `Sha256.Sha256Hex` | src/core/sha256.cpp:67-111 | the result is 64 lower-case hex digits that spell the 256-bit hash value |
| `Sha256.HexIsInjective` | src/core/sha256.cpp:98-110 | equal numbers have equal digits: the text loses nothing |
| `Words.DisjIsSum` | src/core/sha256.cpp:33-36 | or-ing digits in below those already set is adding them |
| `Sha256Laws.ChChooses` | src/core/sha256.cpp:50 | bit by bit, the choice function takes the second or the third word's bit as the first word's bit says |
| `Sha256Laws.MajVotes` | src/core/sha256.cpp:53 | and the majority function the bit that at least two of three words have |
| `Sha256Laws.RotrTurns` | src/core/sha256.cpp:23-26 | a rotated word has the same bits, turned |
| `Sha256Laws.SigmasAdd` | src/core/sha256.cpp:40-52 | the four sigma functions are parities of three bits at the places of section 4.1.2 of FIPS 180-4 |
| `Sha256Laws.FirstConstants` | src/core/sha256.cpp:9-21 | the first eight round constants are the first 32 bits of the fractional parts of the cube roots of the first eight primes; seven more lemmas say it of the others |
| `Sha256Laws.InitialValues` | src/core/sha256.cpp:69-72 | and the initial values those of square roots |
| `Sha256Laws.WordsOfBlock` | src/core/sha256.cpp:31-37 | the first 16 words of the schedule are the block's bytes, four at a time, highest first |
| `Sha256Laws.ScheduleAdds` | src/core/sha256.cpp:38-43 | each further word is the sum of section 6.2.2, with one remainder |
| `Sha256Laws.RoundsAreTwoSequences` | src/core/sha256.cpp:45-58 | 64 rounds on eight variables are two sequences of words, each defined by sums with one remainder; the other six variables are earlier values of these |
| `Sha256Laws.CompressAdds` | src/core/sha256.cpp:60-61 | a block adds those to the hash value, word by word |
| `LeaderElection.BeforeIsStrictTotalOrder` | src/monitor/peer_manager.cpp:508-518 | the comparator is a strict total order on candidates |
| `LeaderElection.SortedHeadWins` | src/monitor/peer_manager.cpp:508-520 | however the candidates were listed and sorted, the first one is the same |
| `LeaderElection.TagsDecide` | src/monitor/peer_manager.cpp:510-515 | a "leader" node leads if there is one; a "noleader" node leads only when all of equal first rank are "noleader" |
| `LeaderElection.ElectedByTags` | src/monitor/peer_manager.cpp:468-535 | over the nodes' own tags: the elected node is live, has "leader" if and only if some live node has, has "noleader" if and only if all like it in that have, and no live node with the same tags has an id that is a beginning of its own or smaller where they first differ |
| `LeaderElection.NewcomerWinsOrChangesNothing` | src/monitor/peer_manager.cpp:468-535 | a newcomer becomes leader exactly when it precedes the leader; otherwise nothing changes |
| `LeaderElection.LossChangesOnlyTheWinner` | src/monitor/peer_manager.cpp:468-535 | losing a node changes the leader if and only if it was the leader |
| `LeaderElection.SameCandidatesSameLeader` | src/monitor/peer_manager.cpp:468-535 | nodes that know the same candidates agree on the leader, and no two of them take themselves for it |
| `LeaderElection.PeerManager.RecomputeLeader` | src/monitor/peer_manager.cpp:468-535 | the winner among itself and all live peers is recorded, on itself and in every peer's flag |
| `FrameCounter.StepConserves` | mr-agent/src/executor.rs:99-107 | every atomic step of either thread keeps: frames sent + tickets still held = worth of the tickets drawn |
| `FrameCounter.AlwaysSound` | mr-agent/src/executor.rs:82-116 | at every moment of every interleaving no frame is announced twice, outside the range, or before its match - absent 32-bit overflow |
| `FrameCounter.ExactIffNoWrap` | mr-agent/src/executor.rs:262-271 | once n matches are sent, exactly the first min(n, length) frames have been announced, if and only if first frame + n is at most 2^32 |
| `IpcFraming.LengthOfHeader` | src/core/ipc_server.cpp:511-529 | four header bytes carry the length modulo 2^32 |
| `IpcFraming.RoundTripIff` | src/core/ipc_server.cpp:511-555 | the messages received are the messages sent if and only if none exceeds 16 MiB |
| `IpcFraming.Pipe.ReadExact` | src/core/ipc_server.cpp:557-589 | over any pattern of partial reads, timeouts and hang-ups: takes a prefix of the stream, succeeds exactly when it is complete, disconnects exactly on a hang-up |
| `IpcFraming.ReadingGets` | src/core/ipc_server.cpp:557-589 | a read gets what it asks for, what there is, or what the polls bring before the first that brings nothing, whichever is least; it breaks the connection only for a hang-up |
| `IpcFraming.Pipe.Receive` | src/core/ipc_server.cpp:531-555 | delivers the next message of the stream however it arrives, and exactly when it can; a body cut short ends the connection |
| `IpcFraming.InStepIff` | src/core/ipc_server.cpp:511-555 | a stream that has lost its first k bytes still yields the messages sent if and only if k is 0 |
| `IpcFraming.ReceivedIffHeadersWhole` | src/core/ipc_server.cpp:531-589 | over any list of receives, under any pattern of partial reads and timeouts, that leaves the connection up: what was delivered followed by what is still to come is what was sent if and only if no receive stopped inside a header |
| `IpcFraming.DeliveredInOrder` | src/core/ipc_server.cpp:531-589 | and while none did, what has been delivered is the first of the messages sent, in order, even when the connection is lost later |
| `IpcFraming.TimeoutInHeaderLosesStep` | src/core/ipc_server.cpp:531-545 | a timeout inside a header is a real gap: the next receive misreads the length and gives up |
| `IpcFraming.WriteAll` | src/core/ipc_server.cpp:591-606 | over any pattern of partial writes a prefix goes out, all of it exactly on success |
| `IpcFraming.WritingGets` | src/core/ipc_server.cpp:591-606 | what goes out is all of it, or what is accepted before the first write that takes nothing |
| `IpcFraming.Send` | src/core/ipc_server.cpp:511-529 | a whole frame, or a proper part of it and no connection |

## Left out

- SQLite, WAL, migrations and exception paths: the tables are in memory and each locked call, edit, dispatch turn or report application is one atomic step; finer interleavings of HTTP threads with the main thread are not modelled.
- Snapshot and restore (`snapshotTo`, `restoreFrom`): an epoch can go back there, so the fence results stop there.
- Reports without a node id or with a negative epoch, from old workers, skip that half of the fence, in the model as in the program; what depends on it says so.
- Signed 32-bit overflow of frame numbers in `computeChunks`, and of retry counters: frame numbers are mathematical integers there.
- The choice of the -vN id for a resubmitted job, `generateSlug` and job-id validation: the new id is a parameter of the step. `resubmitJob` with an edited manifest is not modelled; it is a submission.
- Manifest JSON, regular expressions and command lookup: a manifest is the tags and the frame plan that the leader reads out of it, either of which may fail to parse.
- Path translation between operating systems in `assignWork` and `path_mapping.h`, and display-path conversion in the editor.
- The asynchronous dispatch POST and its timeout: its failure arrives later as a revert request, which may be queued at any time; abort pushes to workers change no table.
- `pollFarmCommands`, peer discovery, heartbeats and the liveness verdict: a peer's state is an input of the dispatcher and of the election.
- Matching agent messages to the active render: the program does not do it, and the model claims nothing about it.
- `init` of the coordinator a second time, which resets its queue.
- Log files, the log ring buffer, telemetry, tray, user interface, image loading, authentication and path-safety checks.
- RenderCoordinator.OneFate: the ticket number that tells equal dispatches apart, like the count of failed retries, is bookkeeping of the model; the program has neither.
- FrameCounter.ExactIffNoWrap: arithmetic wraps, as in a release build; a debug build panics on the overflowing addition instead.
- Delivery.RetriesConverge: two chunks writing to one output directory at once are separate steps of the coordinator; concurrent partial writes of one file are not modelled.
- IpcFraming.Pipe.Receive: the Unix transport; the Windows pipe and the agent's own reader, which has no timeouts, are not modelled.
- LeaderElection.PeerManager.RecomputeLeader: the library sort is represented by its outcome, the first candidate of any correctly sorted list.
- ManifestOverlay.RoundTripIff: says nothing of forms whose match is ambiguous; there values come back in other fields (`OverlayIsExactIff`), and whether re-baking those still gives the same flags is not characterised.
- ReportDelivery.EveryReportArrives: completions and failures; frame reports, which have no effect beyond progress, are left to `FrameTracking` and `MonitorApp`. The leader's own reports, which it applies without a buffer, are in `RenderFarm`.
- RenderFarm.CompletedChunkWasDelivered: that a node only begins what the leader dispatched to it is not part of it; a coordinator may be given any dispatch.
