# Atlas Flow orchestration kernel: a verified model

Atlas Flow turns a goal into a task graph that a person reviews and locks, runs it to a verdict, writes
every change to a log beside the rows it changes, and streams that log to whoever watches. This project
models that kernel in Dafny and proves what it is for. `dafny verify dfyconfig.toml` checks everything.

## What is modelled

- **The task graph** (`Graph`, `TaskGraph`, `DependencyOrder`, `LayerTasks`, `Agreement`). The three-colour
  search, the round-based order and the longest-path layering of one graph are proved against paths and
  rounds, and against each other.
- **The run engine** (`RunStore`, `Scheduler`, `RunEngine`, `Execution`, `Confluence`). Rows and events in
  one transaction, transitions guarded by the caller's copy, the loop over ready tasks, the verdict, and
  cancellation. A ghost history holds every committed state, so a statement about the history is one about
  every crash point.
- **The event stream** (`EventStream`, `WatchedRuns`). Commit, copy of the listeners, delivery, subscription,
  reading the log, replay and drain are separate steps of one relation, for any number of writers and
  watchers. A stream ends where the engine, or recovery, leaves its run.
- **Locking and parallelism** (`Paths`, `WriteScopes`, `LockedPlans`, `RunScopes`, `ParallelBatches`, `Budget`).
  What the conflict check at locking is worth under any dependency-respecting scheduler, first-fit batches,
  and reservation of attempts by tasks that interleave. The checks compare paths as they are spelled; what
  an entry owns is where `ProjectPaths.Resolve` takes it.
- **Plans over time** (`PlanRows`, `PlanLifecycle`, `StartCalls`, `LockCalls`). Rows and their JSON, the
  store that freezes a locked plan, any number of starts under way at once, each cut short at any await,
  and locks and starts of one plan that overlap even within a save.

## Decisions a reader should know

- An exception is a `Result`. Whatever a .NET token or a crash can interrupt is a poll of
  `CancellationToken`, which fires after an arbitrary number of polls; `Never()` says it does not.
- The task runner is arbitrary code. It is a function from the task to one of success, failure, an
  exception, or a cancellation, which loses nothing because it is asked at most once per task
  (`Execution.Execute` proves so).
- The tasks of a run share their creation time and rows are replaced, so the query that lists them may
  return them in any order; `RunRepository.ListTasks` promises none.
- Generated ids are fresh: parameters with a precondition that nobody uses them yet. Timestamps are opaque.
- `TaskView` of the desktop has the fields of a plan's task that the layering reads, so it is modelled by
  `PlanTask`.
- In `StartCalls`, drawing and locking a plan are one step each, and every await of a start is a step. In
  `LockCalls`, which follows one plan, a save looks in one step and writes in another.
- A scope entry is read as `ProjectPaths.Resolve` reads a path (src/AtlasFlow.Orchestration/Projects/ProjectPaths.cs:27-47):
  combined with the project root, with `.` and doubled slashes dropped and `..` climbing, and refused if
  it leads outside. The root is any absolute path. An entry is plain if it starts with no slash and is made
  of names only, and straight if it leads to no other top-level directory than the one it begins with.

## What the code does less well than it says

- `Execution.PlanLeavesRunningIff`: a run leaves Running whatever its runner does if and only if its plan
  has a task and no cycle. `EvaluateCompletionAsync` returns without a transition on an empty task list.
- `Scheduler.CancellingCloses`: cancelling ends a run Cancelled if and only if it was in Planning, Ready or
  Running (or Cancelled already). A run in Created, Verifying or Blocked keeps its state, though its open
  tasks are closed.
- `RunStore.LogDeterminesIff`: the log does not tell a failed task from a cancelled one. It determines a
  task's state exactly unless its last event is a failure out of a state that can be cancelled as well.
- `Execution.Execute`: a token that fires inside a step surfaces as an exception that leaves the run where
  it was, or in Planning, Ready or Running, or ended as specified; only a stop seen between two rounds
  ends it Cancelled.
- `EventStream.OneWriterMeansPrefix`: with one writer per run the stream is a prefix of the log.
  `OvertakenIff`: while a publication still heads for a draining stream, a second commit for the run can be
  yielded before it exactly unless an event that stops the stream comes first; what is yielded is no prefix
  then. With two writers a stream can stop without ever yielding a logged event.
- `LockedPlans.LockedPlanRacesIff`: the conflict check compares the first components of two entries as they
  are written. A locked plan can race exactly when two unordered tasks have entries of which one lies within
  the other where they lead, but which do not begin alike: `""`, `"."` or `"./s"` beside `"s"`, or an entry
  that climbs or is absolute. Straight entries, and so plain ones, never race. `UnseenPairRaces` makes a
  racing plan of every such pair. `GoalPlanner.Draw` gives its tasks no write scope, so such scopes come
  from plans written by the Python planner into the database both share, or from a planner that replaces
  `Draw`. `ParallelBatches.OverlapIff` says the same of `can_coexist`, which also misses `"s//a"` beside
  `"s/a"`, and refuses `"s/../t"` beside `"s"` without need.
- `StartCalls.TwoRunsIff`: a plan comes to a second run row exactly when a start was cut between its two
  writes and the plan was started again. `StartCalls.BothLaunchIff`: two starts of one plan launch two
  engines exactly when both read it before either spent it and neither is cut; the store takes the second
  write because it changes nothing.
- `LockCalls.ComesBackIff`: a spent plan can come back to Locked exactly as long as a lock that saw the draft
  has still to write. `AnotherEngineIff`: so, with one start at a time, can a plan come to a second engine.
- `AcpCalls.FoundInOnePlace`: a call can be lost, exactly if its error response was unreadable.
  `LateCallsOnlyTimeOut`: a call the last sweep did not know of is settled by its timer or not at all.
- `Recovery.ResumedRecoveryIff`: recovery that dies just before it blocks the run leaves the run Running for
  good, as a second recovery finds no running task. `CutBeforeBlocking`: every such run can be cut there.
- The message about a cycle names the first task, in plan order, that reaches one, which need not be on it
  (`TaskGraph.FindCycle`). A plan with a repeated id makes `Validate` throw.

## Model

| member | source | states |
|---|---|---|
| TaskGraph.Validate | src/AtlasFlow.Orchestration/Planning/TaskGraph.cs:31-52 | No error is reported exactly when no dependency dangles and no cycle exists; the unknown dependencies are reported one by one in plan order, and then the cycle under the first task that reaches one; repeated ids throw |
| TaskGraph.FindCycle | src/AtlasFlow.Orchestration/Planning/TaskGraph.cs:123-138 | Finds nothing exactly on acyclic graphs; otherwise the first task in plan order from which some walk goes round a cycle, which need not be on it |
| TaskGraph.HasCycleFrom | src/AtlasFlow.Orchestration/Planning/TaskGraph.cs:140-164 | The three-colour search answers exactly whether the task reaches a cycle, and keeps the colours truthful for the next search |
| Graph.FinishIffAcyclic | src/AtlasFlow.Orchestration/Planning/TaskGraph.cs:101-118 | Releasing tasks round by round finishes all of them exactly when nothing dangles and there is no cycle |
| Graph.DoneIffChainsAreShort | src/AtlasFlow.Orchestration/Planning/TaskGraph.cs:101-118 | A task is finished after k rounds exactly when no dependency chain from it is longer than k |
| DependencyOrder.InDependencyOrder | src/AtlasFlow.Orchestration/Planning/TaskGraph.cs:93-121 | Succeeds exactly on closed acyclic graphs; the result is a permutation with every dependency earlier, and is the levels one after another |
| DependencyOrder.OrderIsSound | src/AtlasFlow.Orchestration/Planning/TaskGraph.cs:93-121 | Whatever the ids, an order that is found is a permutation of the tasks with every dependency before its dependent |
| LayerTasks.Layers | reference/tauri-desktop/desktop/src/screens/PlanScreen.tsx:17-46 | Every task lands in exactly one layer; on an acyclic plan layer k holds, in plan order, the tasks whose longest chain of known dependencies has k links, and no layer is empty |
| Agreement.LayersFlatten | reference/tauri-desktop/desktop/src/screens/PlanScreen.tsx:40-45 | Flattening the layers of a valid plan gives the dependency order exactly |
| Agreement.BatchesAreLayers | src/AtlasFlow.Orchestration/Execution/RunEngine.cs:41-62 | When every task succeeds, batch k of the engine is layer k under the renaming of ids, and there are as many of each |
| RunStore.LogExplainsRun | src/AtlasFlow.Persistence/RunRepository.cs:63-79 | At every crash point a run's events form a chain of legal moves from Created to the state its row holds |
| RunStore.LogTellsTasks | src/AtlasFlow.Orchestration/Execution/Scheduler.cs:96-119 | At every crash point the last event of a task is one that a legal move to its stored state writes, and a task without an event is Planned |
| RunStore.LogDeterminesIff | src/AtlasFlow.Orchestration/Execution/Scheduler.cs:96-119 | No other history with the same log leaves the task in another state, exactly unless its last event says that it failed out of a state from which it can be cancelled |
| StateMachine.RunsComeTo | src/AtlasFlow.Domain/Execution/StateMachine.cs:15-23 | A run never comes back to a state it left, can be cancelled until it verifies, and moves on unless it has ended or is blocked; the moves are exactly these |
| StateMachine.TasksComeTo | src/AtlasFlow.Domain/Execution/StateMachine.cs:30-38 | Cancelling reaches every task that is not over; a task runs only once ready, ends only by running and is made ready again only after it failed |
| StateMachine.AttemptsComeTo | src/AtlasFlow.Domain/Execution/StateMachine.cs:40-45 | An attempt that has ended stays so; until then it can be cancelled, and once started it can fail |
| Scheduler.Move | src/AtlasFlow.Orchestration/Execution/Scheduler.cs:96-119 | With the copy equal to the row, a transition is legal for the row, is explained by its event, and keeps every released task behind its dependencies |
| Scheduler.CancelRun | src/AtlasFlow.Orchestration/Execution/Scheduler.cs:129-158 | Every open task of the run is cancelled and every other row kept; the run is cancelled exactly if it was Planning, Ready or Running |
| Scheduler.CancellingCloses | src/AtlasFlow.Orchestration/Execution/Scheduler.cs:129-158 | Every task of the run ends Succeeded, Failed, Cancelled or Superseded; it is changed exactly if the table lets it go to Cancelled and it had not failed, the run exactly if the table lets it and it is not Created; other tasks are kept, and nothing is left to do twice |
| Scheduler.EvaluateCompletion | src/AtlasFlow.Orchestration/Execution/Scheduler.cs:161-192 | The run moves to the verdict its tasks' states give, and stays where it is when they give none or the table of moves forbids it |
| RunEngine.Materialize | src/AtlasFlow.Orchestration/Execution/RunEngine.cs:115-137 | Succeeds exactly on plans without repeated ids or dangling dependencies; each row is its node under a fresh id with its dependencies translated in place, its scope, risk and objective, and its first capability as role |
| RunEngine.RunLoop | src/AtlasFlow.Orchestration/Execution/RunEngine.cs:41-62 | Terminates; the batches are the levels of the graph, the rows are as the runner says for what has run and untouched otherwise, and each task is called once |
| Execution.MaterializeRenames | src/AtlasFlow.Orchestration/Execution/RunEngine.cs:115-137 | Materializing is a graph isomorphism, so rounds, levels and final states carry over |
| Execution.Execute | src/AtlasFlow.Orchestration/Execution/RunEngine.cs:30-66 | Uncancelled, the run and its tasks end as the recursive specification says and nothing else changes; every crash point is explained by the log, safe in the plan's own dependencies, and stores every node as the plan says; the log tells the run's moves up to Running and, last of all, the move to where it ends; no task is called twice; a stop between rounds ends Cancelled with nothing open, and an exception leaves one of the named states |
| Execution.PlanIsSafe | src/AtlasFlow.Orchestration/Execution/RunEngine.cs:115-137 | At every crash point a plan node in Ready, Running, Succeeded or Failed has all its plan dependencies Succeeded |
| Execution.PlanReachesVerdict | src/AtlasFlow.Orchestration/Execution/Scheduler.cs:161-192 | A non-empty valid plan always leaves Running: Failed if some task failed, Verifying exactly if the runner succeeds with every task, Cancelled otherwise |
| Execution.NodeEndsAs | src/AtlasFlow.Orchestration/Execution/RunEngine.cs:68-112 | A node of a valid plan stays Planned exactly if something it waits for did not succeed, and otherwise ends Succeeded, Failed or Cancelled exactly as the runner succeeds, fails or throws, or throws a cancellation |
| Execution.PlanLeavesRunningIff | src/AtlasFlow.Orchestration/Execution/Scheduler.cs:164-169 | A plan without dangling dependencies leaves Running under every runner exactly when it has a task and no cycle |
| Confluence.Confluent | src/AtlasFlow.Orchestration/Execution/Scheduler.cs:81-94 | On a valid graph the recursive specification of final states has exactly one solution, the one the engine's rounds reach |
| Confluence.AlwaysLeavesRunningIff | src/AtlasFlow.Orchestration/Execution/Scheduler.cs:161-192 | A graph reaches a verdict under all outcomes exactly when it is non-empty and acyclic |
| EventStream.ExactlyOnce | src/AtlasFlow.Application/Services/RunService.cs:167-211 | For every interleaving: no event twice or from another run, nothing after an event that stops, and a quiet stream has yielded exactly the run's events |
| EventStream.OneWriterMeansPrefix | src/AtlasFlow.Application/Services/RunService.cs:167-211 | With one writer per run the output is at every moment a prefix of the run's log, stops at the first stopping event, and otherwise catches up with the log |
| EventStream.CanCatchUp | src/AtlasFlow.Application/Services/RunService.cs:167-211 | From every reachable state, every listening stream can stop or yield exactly the events of its run, without another commit |
| WatchedRuns.StopsIff | src/AtlasFlow.Application/Services/RunService.cs:252-253 | A stream ends exactly at the verdicts that tasks can bring a run to and at the states no move leads out of |
| WatchedRuns.LastEventStops | src/AtlasFlow.Application/Services/RunService.cs:252-265 | When an execution ends with a verdict, or a stop between rounds, its last event stops a stream of the run and no earlier one does |
| WatchedRuns.WatchersEndWithTheRun | src/AtlasFlow.Application/Services/RunService.cs:167-211 | With one writer, a stream of an ended run is over exactly when it has yielded all of the run's log, and is never left waiting |
| WatchedRuns.WatchersCanEnd | src/AtlasFlow.Application/Services/RunService.cs:167-211 | Every listening stream of an ended run can come to that end |
| WatchedRuns.WatchersOfAStuckRunWait | src/AtlasFlow.Application/Services/RunService.cs:252-265 | No stream of a run without a verdict is ever over |
| WatchedRuns.BlockingStops | reference/python-backend/atlas_flow/execution/scheduler.py:261-271 | Recovery stops the streams of the run it blocks, with its last event, and of no other |
| EventStream.OvertakenIff | src/AtlasFlow.Persistence/RunRepository.cs:153-168 | While a publication still heads for a draining watcher, a second commit for the run can be yielded before it exactly unless an event that stops the stream comes first |
| EventStream.OvertakenIsNoPrefix | src/AtlasFlow.Application/Services/RunService.cs:167-211 | A stream that has yielded an event logged after one it has not is no prefix of the run's log |
| EventStream.TwoWritersCanLoseAnEvent | src/AtlasFlow.Persistence/EventStore.cs:71-94 | With two writers a stream can stop without ever yielding an event that is logged earlier |
| WriteScopes.SharedPathIff | src/AtlasFlow.Orchestration/Planning/TaskGraph.cs:184-201 | A shared prefix is non-empty exactly when both paths begin with one component and neither is cut into nothing, and is the longest path of components both begin with |
| WriteScopes.FirstSharedIff | src/AtlasFlow.Orchestration/Planning/TaskGraph.cs:166-181 | An overlap is found exactly when some entries of the two scopes lie in one top-level directory |
| WriteScopes.NoConflictsIff | src/AtlasFlow.Orchestration/Planning/TaskGraph.cs:62-89 | No conflict is reported exactly when no two tasks that do not depend on each other directly share a top-level directory |
| WriteScopes.ReportedIff | src/AtlasFlow.Orchestration/Planning/TaskGraph.cs:62-89 | Exactly the pairs in conflict are reported, under their ids in plan order, each with the first thing their scopes share |
| LockedPlans.LockedPlansCannotRace | src/AtlasFlow.Application/Services/PlanService.cs:65-79 | A plan that passes the check and whose entries lead into the top-level directory they begin with never has two running tasks that own a common file, under any dependency-respecting scheduler and for any project root |
| LockedPlans.LockedPlanRacesIff | src/AtlasFlow.Application/Services/PlanService.cs:65-79 | A valid plan that passes the check can race exactly when two unordered tasks have entries of which one leads to or beneath the other, though they do not begin alike |
| LockedPlans.UnseenPairRaces | src/AtlasFlow.Orchestration/Planning/TaskGraph.cs:184-201 | Every pair of entries that hides an overlap makes a valid plan that passes the check and races |
| LockedPlans.UnseenPairs | src/AtlasFlow.Orchestration/Projects/ProjectPaths.cs:27-47 | The empty path and a dot beside any plain entry, and a plain entry beside itself behind a dot, are such pairs |
| LockedPlans.AbsoluteUnseen | src/AtlasFlow.Orchestration/Projects/ProjectPaths.cs:27-47 | So is a plain entry beside itself behind the project's own absolute path, unless that begins alike |
| Paths.OutsideIsRefused | src/AtlasFlow.Orchestration/Projects/ProjectPaths.cs:33-44 | The parent of the root, and another top-level directory of the file system, lead to no place inside |
| LockedPlans.PlainIsStraight | src/AtlasFlow.Orchestration/Projects/ProjectPaths.cs:27-47 | An entry made of names only leads into the top-level directory it begins with |
| LockedPlans.CanMeet | src/AtlasFlow.Orchestration/Execution/Scheduler.cs:81-94 | Two tasks no chain of dependencies orders can be running at the same time |
| RunScopes.RunningRowsShareNoFile | src/AtlasFlow.Orchestration/Execution/RunEngine.cs:115-137 | At no crash point of a run of a checked plan do two running rows own a common file, except through entries that hide it; the rows carry the plan's scopes |
| ParallelBatches.CanCoexist | reference/python-backend/atlas_flow/planner/worktree.py:46-60 | True exactly when no entry of one scope is a prefix of an entry of the other, as they are cut |
| ParallelBatches.OverlapIff | reference/python-backend/atlas_flow/planner/worktree.py:46-60 | Scopes that can coexist own a common file exactly through two entries that nest once resolved but not as cut; scopes that cannot coexist own one unless an entry starts with a slash or climbs; with plain entries both agree |
| ParallelBatches.RootHides | reference/python-backend/atlas_flow/planner/worktree.py:46-60 | The empty path and a dot coexist with every plain entry, which they contain |
| ParallelBatches.DoubledSlashHides | reference/python-backend/atlas_flow/planner/worktree.py:46-60 | A path coexists with itself spelled with a doubled slash |
| ParallelBatches.ClimbingIsRefused | reference/python-backend/atlas_flow/planner/worktree.py:46-60 | A path that climbs out of a directory is refused beside that directory, with which it has no file in common |
| ParallelBatches.FirstFitIsSafe | reference/python-backend/atlas_flow/execution/goal_runner.py:198-220 | The batches hold exactly the ready tasks, none is empty or over the limit, any two tasks of one can coexist, and no task stands behind a batch it would fit |
| ParallelBatches.BatchesShareNoFile | reference/python-backend/atlas_flow/planner/worktree.py:242-258 | Tasks of one batch own a common file exactly through entries that nest once resolved but not as cut, so never with plain entries |
| Budget.NeverOverspent | reference/python-backend/atlas_flow/execution/budget.py:97-124 | In every interleaving attempts stay within their cap, each is in flight, recorded or lost, and tokens and cost overshoot a positive limit by less than one full batch can report |
| Budget.ConfiguredBounds | reference/python-backend/atlas_flow/execution/budget.py:76-88 | The same bounds in the configured numbers, for every behaviour of a ledger made from them |
| Budget.RefusedIff | reference/python-backend/atlas_flow/execution/budget.py:97-116 | An attempt is refused exactly when a configured limit is spent, and zero limits nothing |
| Budget.NothingReportedIsLost | reference/python-backend/atlas_flow/execution/budget.py:118-124 | The tokens, the cost and the silent attempts of the ledger add up to exactly what was reported |
| Budget.TokenBoundIsReached | reference/python-backend/atlas_flow/execution/goal_runner.py:347-416 | The token bound is reached exactly by one-token attempts followed by a full batch |
| Budget.BudgetLedger.ReserveAttempt | reference/python-backend/atlas_flow/execution/budget.py:97-116 | Claims one attempt exactly when no limit is spent, and changes nothing otherwise |
| Budget.LimitsFrom | reference/python-backend/atlas_flow/execution/budget.py:76-88 | The attempt cap is at least one, and for a plan with tasks one try and all retries for each |
| PlanRows.TasksReadBack | src/AtlasFlow.Persistence/PlanRepository.cs:109-165 | Deserializing what was serialized gives the same tasks |
| PlanRows.SparseReads | src/AtlasFlow.Persistence/PlanRepository.cs:147-164 | Missing and null fields read as empty, and only the risk is demanded |
| PlanRows.ReadsIff | src/AtlasFlow.Persistence/PlanRepository.cs:141-174 | An object reads exactly if its risk and gates have known names and nothing in it is of another kind |
| PlanRows.NullsAreBlank | src/AtlasFlow.Persistence/PlanRepository.cs:141-174 | A null field is no field, and a null item of a list is the empty text |
| PlanRows.OnlyObjectsRead | src/AtlasFlow.Persistence/PlanRepository.cs:147-164 | Exactly the objects of the array are read, in their order |
| PlanRows.RowsDifferIff | src/AtlasFlow.Persistence/PlanRepository.cs:87-107 | Comparing persisted forms finds a change exactly when the plans differ |
| PlanLifecycle.PlanRepository.Save | src/AtlasFlow.Persistence/PlanRepository.cs:36-59 | A write is taken exactly if the plan is new, a draft, unchanged, or consumed from locked; otherwise nothing changes |
| PlanLifecycle.Services.CreatePlan | src/AtlasFlow.Application/Services/PlanService.cs:28-53 | A drawn plan is stored exactly if its graph is valid |
| PlanLifecycle.Services.LockPlan | src/AtlasFlow.Application/Services/PlanService.cs:55-80 | A plan is locked exactly if it is a draft whose tasks have no conflict |
| PlanLifecycle.Services.StartRun | src/AtlasFlow.Application/Services/RunService.cs:64-89 | A locked plan is spent by one run and one engine; cut short between its writes, a start leaves a run row and the plan locked |
| StartCalls.PlansOnlyMoveOn | src/AtlasFlow.Persistence/PlanRepository.cs:36-59 | However starts overlap, with each lock one step, a plan never disappears or moves back, and only its state changes |
| StartCalls.LaunchedAsLocked | src/AtlasFlow.Application/Services/RunService.cs:267-284 | An engine runs the plan as it was locked, valid and without conflicts, and the store still holds it |
| StartCalls.LaunchedPlanRacesIff | src/AtlasFlow.Application/Services/RunService.cs:91-128 | A task graph an engine is given can race exactly through entries that nest where they lead but do not begin alike, and never with straight entries |
| StartCalls.BothLaunchIff | src/AtlasFlow.Application/Services/RunService.cs:64-89 | Two starts of one plan can both launch an engine exactly when neither is cut and both held the plan before either spent it |
| StartCalls.TwoEnginesOnOnePlan | src/AtlasFlow.Application/Services/RunService.cs:64-89 | A history that ends with two engines on one plan |
| StartCalls.TwoRunsIff | src/AtlasFlow.Application/Services/RunService.cs:81-85 | One start at a time, a plan has two run rows exactly when a start was cut between its writes and the plan was started again |
| StartCalls.OneRunPerPlan | src/AtlasFlow.Application/Services/RunService.cs:81-87 | One start at a time and none cut, every run row has exactly one engine and no plan has a second row |
| StartCalls.OneEnginePerPlan | src/AtlasFlow.Application/Services/RunService.cs:83-87 | One start at a time, cut or not, a plan never comes to a second engine |
| LockCalls.ComesBackIff | src/AtlasFlow.Persistence/PlanRepository.cs:36-59 | However locks and starts of a plan overlap, it can come back from Consumed to Locked exactly as long as a lock that saw the draft has still to write, or it is a draft without conflicts |
| LockCalls.OneStartAtATime | src/AtlasFlow.Application/Services/PlanService.cs:55-80 | Of two starts that may not overlap, at least one is launched or over |
| LockCalls.AnotherEngineIff | src/AtlasFlow.Application/Services/PlanService.cs:55-80 | With one start at a time, a plan that has its engine can come to another exactly if it is locked, or a lock that saw the draft has still to write |
| LockCalls.SavedIsStored | src/AtlasFlow.Persistence/PlanRepository.cs:36-59 | A save that returns has its plan stored at that moment |
| LockCalls.LockedTwiceRunsTwice | src/AtlasFlow.Application/Services/PlanService.cs:55-80 | A history with two overlapping locks, one start at a time and two engines on one plan |
| GoalCache.HitIsFreshIff | src/AtlasFlow.Orchestration/Goals/GoalLoader.cs:43-58 | A cache hit equals a fresh read at this call's stats exactly when every file was read in the version that was statted and nothing was read where nothing was found, unless a stat failed |
| GoalCache.HitIsWhole | src/AtlasFlow.Orchestration/Goals/GoalLoader.cs:43-58 | A hit's signature has exactly the files this call listed, and it returns exactly the files listed to be read |
| GoalCache.MarksOfStats | src/AtlasFlow.Orchestration/Goals/GoalLoader.cs:176-190 | A mark of failure stands exactly for a stat that failed, and a missing file has its own |
| GoalCache.ForgottenMisses | src/AtlasFlow.Orchestration/Goals/GoalLoader.cs:60-61 | After forgetting, a look misses |
| GoalCache.StoredIsFound | src/AtlasFlow.Orchestration/Goals/GoalLoader.cs:50-57 | What a load stored is found by the next look exactly if the signatures agree |
| GoalCache.HitInTimeIsFresh | src/AtlasFlow.Orchestration/Goals/GoalLoader.cs:43-58 | A hit on what was read before this call's stats, or at its own, is fresh |
| GoalCache.HitIsNeverOlder | src/AtlasFlow.Orchestration/Goals/GoalLoader.cs:165-190 | Whatever the timing, a hit never returns a file older than this call's stat of it |
| GoalCache.OverlappingHitIsNotFresh | src/AtlasFlow.Orchestration/Goals/GoalLoader.cs:43-58 | Two overlapping loads and an edit between them make a hit that is not fresh |
| GoalCache.HitOnDeletedFile | src/AtlasFlow.Orchestration/Goals/GoalLoader.cs:63-83 | A file created after the stat and deleted after the read is returned by a later hit |
| AcpCalls.SettledOnce | src/AtlasFlow.Protocols/Acp/AcpConnection.cs:322-349 | The first outcome of a call stands for good |
| AcpCalls.AnsweredByOwnResponse | src/AtlasFlow.Protocols/Acp/AcpConnection.cs:136-139 | A call is answered only by a response under its own number, which no other call ever had |
| AcpCalls.UnknownAndLateChangeNothing | src/AtlasFlow.Protocols/Acp/AcpConnection.cs:322-332 | A response under a number nobody registered, or whose call is over, changes nothing |
| AcpCalls.ResponseIsTaken | src/AtlasFlow.Protocols/Acp/AcpConnection.cs:322-332 | A response of any kind to a call in the table is taken by the idle reader, with the call, and with no other |
| AcpCalls.ResponseSettlesItsCall | src/AtlasFlow.Protocols/Acp/AcpConnection.cs:334-348 | A readable response that was taken settles its own call, unless that is settled already, and no other |
| AcpCalls.ResponseAnswersItsCall | src/AtlasFlow.Protocols/Acp/AcpConnection.cs:322-348 | A readable response to a pending call without an outcome is its answer two steps later, and nobody else's |
| AcpCalls.EveryEndIsReached | src/AtlasFlow.Protocols/Acp/AcpConnection.cs:148-168 | A timer that fires and a sweep that took a call end it, and who has an outcome leaves the table |
| AcpCalls.WaitsForItsOutcome | src/AtlasFlow.Protocols/Acp/AcpConnection.cs:150-168 | Nobody stops waiting without an outcome |
| AcpCalls.FoundInOnePlace | src/AtlasFlow.Protocols/Acp/AcpConnection.cs:136-169 | A call that expects an outcome and has none is in the table or held by one settler, in exactly one place, exactly unless it is lost to an unreadable response |
| AcpCalls.SweptAfterClosing | src/AtlasFlow.Protocols/Acp/AcpConnection.cs:370-379 | After closing, every call registered before the last sweep is settled, and whoever expects an outcome and has none is in the table |
| AcpCalls.SweptAfterThrowing | src/AtlasFlow.Protocols/Acp/AcpConnection.cs:250-253 | The sweep after a reading loop that threw settles all it knew of but the call that was lost by it |
| AcpCalls.LateCallsOnlyTimeOut | src/AtlasFlow.Protocols/Acp/AcpConnection.cs:131-139 | From the beginning of the last sweep on, a call it did not know of is settled by its timer or not at all |
| AcpCalls.CallAfterTheSweep | src/AtlasFlow.Protocols/Acp/AcpConnection.cs:131-139 | After any beginning of the last sweep a new call can come to wait in the table |
| AcpCalls.NoSweepAfterAThrow | src/AtlasFlow.Protocols/Acp/AcpConnection.cs:425-439 | Once a handler threw or a response could not be read, the reading has ended for good and closing never sweeps |
| AcpCalls.ClosingCanEnd | src/AtlasFlow.Protocols/Acp/AcpConnection.cs:389-439 | From every reachable state the settlers alone can end, and then every waiting call that is not late has an outcome, the lost apart |
| AcpCalls.UnreadableErrorLosesCall | src/AtlasFlow.Protocols/Acp/AcpConnection.cs:334-345 | An error whose code cannot be read removes its call from the table and settles nobody |
| Recovery.Recover | reference/python-backend/atlas_flow/execution/scheduler.py:224-273 | Orphaned attempts and tasks are closed, the run blocked exactly if it was Running with a running task, the report names exactly the orphans, and the log has one event for each change; cut short, some attempts are closed, or all of them and some tasks, each with its event |
| Recovery.RecoveryCloses | reference/python-backend/atlas_flow/execution/scheduler.py:238-271 | Nothing is left that looks active, what was closed has failed and its task can be retried, every change is a legal move, and no other run is touched |
| Recovery.EveryChangeIsLogged | reference/python-backend/atlas_flow/execution/scheduler.py:238-271 | Every change of recovery is in the log with the state before it |
| Recovery.RecoveryIsIdempotent | reference/python-backend/atlas_flow/execution/scheduler.py:227-231 | A second recovery changes, logs and reports nothing |
| Recovery.ResumedRecoveryIff | reference/python-backend/atlas_flow/execution/scheduler.py:261-271 | Recovery cut short and run again comes to the same rows, and to the same run unless it had to be blocked and no running task was left |
| Recovery.CutBeforeBlocking | reference/python-backend/atlas_flow/execution/scheduler.py:261-271 | Every recovery that is to block its run can be cut just before, and whatever recovers it again leaves it Running |
| Settings.VariablesWin | reference/python-backend/atlas_flow/settings.py:272-283 | A variable that converts is in force whatever the files hold |
| Settings.UserIsNext | reference/python-backend/atlas_flow/settings.py:272-283 | Without one, what the user file says is in force whatever the project files hold |
| Settings.ProjectIsLast | reference/python-backend/atlas_flow/settings.py:272-283 | Then what the project file says at the setting's place, and the default only if nothing does |
| Settings.ValidByValue | reference/python-backend/atlas_flow/settings.py:435-447 | Which kinds take a value, told by the value |
| Settings.DefaultsAreValid | reference/python-backend/atlas_flow/settings.py:41-187 | Every default may be written back, and only the cost ceiling takes a fraction |
| Settings.PatchedKeepsRest | reference/python-backend/atlas_flow/settings.py:375-386 | A patch keeps every field it does not name and every malformed section |
| Settings.AppliedReadsBack | reference/python-backend/atlas_flow/settings.py:298-325 | A patched key that nothing shadows reads back from its own layer, and every other key reads as before |
| Settings.PatchedGet | reference/python-backend/atlas_flow/settings.py:375-386 | Keys that share a file and a section do not disturb each other |
| Settings.ResetReveals | reference/python-backend/atlas_flow/settings.py:328-342 | A reset reveals exactly what the other layers hold, and changes no other key |
| Settings.ResetUndoes | reference/python-backend/atlas_flow/settings.py:298-342 | Resetting what was patched gives every view back |
| Settings.Store.Apply | reference/python-backend/atlas_flow/settings.py:298-325 | A patch is written as a whole exactly if it is accepted, and a rejected one writes no file |
| Settings.Store.Reset | reference/python-backend/atlas_flow/settings.py:328-342 | The named keys are taken out of their layer; keys of another layer are refused and nothing changes; cut short, the first few keys are out |
| CostLedger.OnlyTheLastCounts | reference/python-backend/atlas_flow/evolution/intelligence.py:53-57 | Of every task exactly the last record counts |
| CostLedger.BuildSummary | reference/python-backend/atlas_flow/evolution/intelligence.py:52-96 | The cost per component sums exactly to what the counted records that name components cost, each component charged one share for every mention |
| CostLedger.NeverOvercharged | reference/python-backend/atlas_flow/evolution/intelligence.py:68-74 | The allocation never exceeds the observed cost, and equals it exactly when every record that cost anything names a component |

## Left out

- Desktop, web and Avalonia user interfaces: only the layering of the plan screen is modelled.
- SQLite, YAML and JSON text, processes and git: modelled as maps, sequences, values and oracles; their text forms are assumed to round-trip, a transaction to be one atomic step, and an atomic file write not to fail.
- Hashes and clocks: goal revisions and timestamps are opaque values; a stored timestamp is assumed to read back.
- Task retries and the Superseded, Reviewing and Completed states: nothing in the C# engine drives them; they are entries of the transition tables, which LockedPlans covers in full.
- Attempts in the C# engine, and the attempt lifecycle of the Python harness: only what recovery does to attempts is modelled.
- Gates, evidence, routing, worktree creation and merging in the Python goal runner: only its batches and its budget are modelled.
- The Python copy of the graph code (dag.py): it mirrors the C# code modelled here, but for the task its cycle message names.
- PlanLifecycle.Services.LockPlan: one call at a time; calls that overlap within their saves are LockCalls, which follows a single plan and leaves its runs out.
- StartCalls.PlansOnlyMoveOn: locking is one step there; LockCalls.ComesBackIff says when overlapping locks break it.
- Paths.Resolve: Unix paths without symbolic links, on a file system that tells upper from lower case.
- PlanLifecycle.Services.CreatePlan: the drawn plan is a parameter; how GoalPlanner.Draw derives it from a goal is not modelled.
- RunEngine.RunLoop: the polls of the token are the only points where a stop arrives; the event a task interrupted by an exception writes is the one Scheduler.Move promises.
- EventStream.ExactlyOnce: WatchAllAsync, which replays nothing, is not modelled, and listeners that throw are those that never receive.
- EventStream.OvertakenIff: a watcher that is still replaying is not covered.
- GoalCache.HitIsFreshIff: what a goal's fields parse to is not modelled; a file that does not parse ends the load. A signature is a map, as both lists are sorted and name no path twice.
- AcpCalls.FoundInOnePlace: requests and notifications from the agent are not modelled beyond a handler that throws; they do not touch the pending table.
- Settings.Store.Apply: the bound of a number is the only validation beyond its kind, as in the source; an environment variable that does not convert fails every load.
- CostLedger.BuildSummary: rounding, tokens, estimates, debt and documentation coverage are not modelled; each is a plain sum or ratio.
- TaskGraph.FindCycle: the errors are values; the sentences that show them are not modelled.
- WriteScopes.NoConflictsIff: the text of a conflict beyond its being found is RowsOf, which the method equals.
