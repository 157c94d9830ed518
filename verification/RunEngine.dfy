/**
 The loop that executes a run (RunEngine.cs): its batches are the levels of the task graph, whatever
 order the rows come in, and what has run is what the released tasks came to. The rows of a run are
 described by the set of tasks that have run; one task, one round and one turn of the loop each
 extend that set.
 */
module RunEngine {
  import opened Wrappers
  import opened Domain
  import opened Graph
  import opened StateMachine
  import opened RunStore
  import opened Scheduler
  import TaskGraph

  // --- the runner --------------------------------------------------------------------------

  /** What arbitrary code did with one task, including the two ways it can throw. */
  datatype RunnerResult =
    | Success(detail: string)
    | Failure(detail: string)
    | Throws(message: string)
    | ThrowsCancelled

  function StateAfter(result: RunnerResult): TaskState {
    match result
    case Success(_) => TaskState.Succeeded
    case ThrowsCancelled => TaskState.Cancelled
    case _ => TaskState.Failed
  }

  /** A runner, and the calls made to it. It is asked once per task, so one answer each is enough. */
  class TaskRunner {
    const outcomes: TaskId -> RunnerResult
    ghost var calls: seq<TaskId>

    constructor (outcomes: TaskId -> RunnerResult)
      ensures this.outcomes == outcomes && calls == []
    {
      this.outcomes := outcomes;
      calls := [];
    }

    method RunAsync(task: RunTask) returns (result: RunnerResult)
      modifies this
      ensures result == outcomes(task.id) && calls == old(calls) + [task.id]
    {
      calls := calls + [task.id];
      result := outcomes(task.id);
    }
  }

  /** The calls from c on were to the tasks of ran, each exactly once. */
  ghost predicate CalledOnce(calls: seq<TaskId>, c: nat, ran: set<TaskId>) {
    c <= |calls| && multiset(calls[c..]) == multiset(ran)
  }

  lemma CallOneMore(calls: seq<TaskId>, c: nat, ran: set<TaskId>, id: TaskId)
    requires CalledOnce(calls, c, ran) && id !in ran
    ensures CalledOnce(calls + [id], c, ran + {id})
  {
    assert (calls + [id])[c..] == calls[c..] + [id];
  }

  // --- materializing a plan --------------------------------------------------------------------

  function Rewriting(tasks: seq<PlanTask>, ids: seq<TaskId>): (rewritten: map<TaskId, TaskId>)
    requires UniqueIds(tasks) && |ids| == |tasks|
  {
    map i | 0 <= i < |tasks| :: tasks[i].id := ids[i]
  }

  function Translate(dependencies: seq<TaskId>, rewritten: map<TaskId, TaskId>): (translated: seq<TaskId>)
    requires forall d :: d in dependencies ==> d in rewritten
    ensures |translated| == |dependencies|
    ensures forall i :: 0 <= i < |dependencies| ==> translated[i] == rewritten[dependencies[i]]
  {
    if dependencies == [] then [] else [rewritten[dependencies[0]]] + Translate(dependencies[1..], rewritten)
  }

  function RowFor(task: PlanTask, id: TaskId, run: RunId, now: Moment, rewritten: map<TaskId, TaskId>): RunTask
    requires forall d :: d in task.dependencies ==> d in rewritten
  {
    RunTask(id, run, task.objective,
      if |task.capabilities| > 0 then task.capabilities[0] else "core-implementer",
      task.risk, task.writeScope, TaskState.Planned, Translate(task.dependencies, rewritten), now)
  }

  /** What a row says of its node beside its dependencies; the role is the node's first capability, if it has one. */
  ghost predicate Carries(row: RunTask, task: PlanTask) {
    && row.objective == task.objective && row.risk == task.risk && row.writeScope == task.writeScope
    && (task.capabilities == [] ==> row.role == "core-implementer")
    && (task.capabilities != [] ==> row.role == task.capabilities[0])
  }

  /** Generated ids: as many as tasks, all different. */
  ghost predicate FreshIds(ids: seq<TaskId>, n: nat) {
    |ids| == n && forall i, j :: 0 <= i < j < |ids| ==> ids[i] != ids[j]
  }

  /** Row i is node i under id i, its dependencies rewritten with it. */
  ghost predicate Materialized(tasks: seq<PlanTask>, ids: seq<TaskId>, run: RunId, now: Moment, rows: seq<RunTask>)
    requires UniqueIds(tasks) && |ids| == |tasks|
  {
    Translated(tasks, ids, run, now, Rewriting(tasks, ids), rows)
  }

  ghost predicate Translated(tasks: seq<PlanTask>, ids: seq<TaskId>, run: RunId, now: Moment, rewritten: map<TaskId,
                             TaskId>, rows: seq<RunTask>)
    requires |ids| == |tasks|
  {
    |rows| == |tasks| && forall i :: 0 <= i < |tasks| ==> MaterializedAt(tasks[i], ids[i], run, now, rewritten, rows[i])
  }

  ghost predicate MaterializedAt(task: PlanTask, id: TaskId, run: RunId, now: Moment, rewritten: map<TaskId, TaskId>,
                                 row: RunTask) {
    && (forall d :: d in task.dependencies ==> d in rewritten)
    && row == RowFor(task, id, run, now, rewritten)
  }

  lemma UnknownMeansOpen(tasks: seq<PlanTask>, ids: seq<TaskId>, i: nat, d: TaskId)
    requires UniqueIds(tasks) && |ids| == |tasks| && i < |tasks| && d in tasks[i].dependencies
    requires d !in Rewriting(tasks, ids)
    ensures !Closed(TaskGraph.GraphOf(tasks))
  {
    var g := TaskGraph.GraphOf(tasks);
    assert tasks[i].id in g && d in g[tasks[i].id] && d !in g;
  }

  lemma MaterializedMeansClosed(tasks: seq<PlanTask>, ids: seq<TaskId>, run: RunId, now: Moment, rows: seq<RunTask>)
    requires UniqueIds(tasks) && |ids| == |tasks| && Materialized(tasks, ids, run, now, rows)
    ensures Closed(TaskGraph.GraphOf(tasks))
  {
    var g := TaskGraph.GraphOf(tasks);
    forall a, d | a in g && d in g[a] ensures d in g {
      var i :| 0 <= i < |tasks| && tasks[i].id == a;
      assert MaterializedAt(tasks[i], ids[i], run, now, Rewriting(tasks, ids), rows[i]);
    }
  }

  method TranslateAll(tasks: seq<PlanTask>, run: RunId, ids: seq<TaskId>, now: Moment, rewritten: map<TaskId, TaskId>)
    returns (r: Result<seq<RunTask>, RunError>, ghost stuck: nat)
    requires |ids| == |tasks|
    ensures r.Ok? ==> Translated(tasks, ids, run, now, rewritten, r.value)
    ensures r.Err? ==> r.error == KeyNotFound && stuck < |tasks|
    ensures r.Err? ==> exists d :: d in tasks[stuck].dependencies && d !in rewritten
  {
    var rows: seq<RunTask> := [];
    for i := 0 to |tasks|
      invariant |rows| == i
      invariant forall k :: 0 <= k < i ==> MaterializedAt(tasks[k], ids[k], run, now, rewritten, rows[k])
    {
      if d :| d in tasks[i].dependencies && d !in rewritten {
        return Err(KeyNotFound), i;
      }
      rows := rows + [RowFor(tasks[i], ids[i], run, now, rewritten)];
    }
    return Ok(rows), |tasks|;
  }

  lemma MaterializedCarry(tasks: seq<PlanTask>, ids: seq<TaskId>, run: RunId, now: Moment,
                          rewritten: map<TaskId, TaskId>, rows: seq<RunTask>)
    requires |ids| == |tasks| && Translated(tasks, ids, run, now, rewritten, rows)
    ensures forall i :: 0 <= i < |tasks| ==> Carries(rows[i], tasks[i]) && rows[i].createdAt == now
  {
    forall i | 0 <= i < |tasks| ensures Carries(rows[i], tasks[i]) && rows[i].createdAt == now {
      assert MaterializedAt(tasks[i], ids[i], run, now, rewritten, rows[i]);
    }
  }

  /** Succeeds exactly on plans without repeated ids or dangling dependencies, one row per node. */
  method Materialize(tasks: seq<PlanTask>, run: RunId, ids: seq<TaskId>, now: Moment)
    returns (r: Result<seq<RunTask>, RunError>)
    requires FreshIds(ids, |tasks|)
    ensures !UniqueIds(tasks) ==> r == Err(DuplicateKey)
    ensures UniqueIds(tasks) && !Closed(TaskGraph.GraphOf(tasks)) ==> r == Err(KeyNotFound)
    ensures UniqueIds(tasks) && Closed(TaskGraph.GraphOf(tasks)) ==> r.Ok?
    ensures r.Ok? ==> Materialized(tasks, ids, run, now, r.value)
    ensures r.Ok? ==> forall i :: 0 <= i < |tasks| ==> Carries(r.value[i], tasks[i]) && r.value[i].createdAt == now
  {
    var unique := TaskGraph.HasUniqueIds(tasks);
    if !unique {
      return Err(DuplicateKey);
    }
    ghost var stuck;
    r, stuck := TranslateAll(tasks, run, ids, now, Rewriting(tasks, ids));
    if r.Ok? {
      MaterializedMeansClosed(tasks, ids, run, now, r.value);
      MaterializedCarry(tasks, ids, run, now, Rewriting(tasks, ids), r.value);
    } else {
      ghost var d :| d in tasks[stuck].dependencies && d !in Rewriting(tasks, ids);
      UnknownMeansOpen(tasks, ids, stuck, d);
    }
  }

  // --- rows while a run is under way --------------------------------------------------------------

  /** The tasks of a run as planned: their own keys, all Planned, waiting only for each other. */
  ghost predicate PlannedRows(rows: map<TaskId, RunTask>, run: RunId) {
    && (forall id :: id in rows ==> rows[id].id == id && rows[id].runId == run && rows[id].state == TaskState.Planned)
    && (forall id {:trigger WaitsInside(rows, id)} :: id in rows ==> WaitsInside(rows, id))
  }

  ghost predicate WaitsInside(rows: map<TaskId, RunTask>, id: TaskId)
    requires id in rows
  {
    forall d :: d in rows[id].dependencies ==> d in rows
  }

  ghost function GraphOfRows(rows: map<TaskId, RunTask>): Graph {
    map id | id in rows :: rows[id].dependencies
  }

  /** The rows once the tasks of ran have finished as the runner says, and the rest have not begun. */
  ghost function RowsAfter(rows: map<TaskId, RunTask>, outcomes: TaskId -> RunnerResult, ran: set<TaskId>): map<TaskId,
                           RunTask> {
    map id | id in rows :: rows[id].(state := if id in ran then StateAfter(outcomes(id)) else TaskState.Planned)
  }

  /** The tasks whose outcome releases nobody. */
  ghost function Unsuccessful(rows: map<TaskId, RunTask>, outcomes: TaskId -> RunnerResult): set<TaskId> {
    set id | id in rows && StateAfter(outcomes(id)) != TaskState.Succeeded
  }

  ghost function RanBy(rows: map<TaskId, RunTask>, outcomes: TaskId -> RunnerResult, k: nat): set<TaskId> {
    DoneAfter(GraphOfRows(rows), Unsuccessful(rows, outcomes), k)
  }

  /** Every dependency has run and succeeded. */
  ghost predicate Released(rows: map<TaskId, RunTask>, outcomes: TaskId -> RunnerResult, ran: set<TaskId>, id: TaskId)
    requires id in rows
  {
    forall d :: d in rows[id].dependencies ==> d in ran && StateAfter(outcomes(d)) == TaskState.Succeeded
  }

  /** Beside the rows of other runs, the tables hold this run's rows after the tasks of ran. */
  ghost predicate Holds(tables: Tables, others: map<TaskId, RunTask>, rows: map<TaskId, RunTask>,
                        outcomes: TaskId -> RunnerResult, ran: set<TaskId>)
  {
    tables.tasks == others + RowsAfter(rows, outcomes, ran)
  }

  lemma ReleasedIsSafe(tables: Tables, others: map<TaskId, RunTask>, rows: map<TaskId, RunTask>,
                       outcomes: TaskId -> RunnerResult, ran: set<TaskId>, id: TaskId, run: RunId)
    requires PlannedRows(rows, run) && Holds(tables, others, rows, outcomes, ran)
    requires id in rows && id !in ran && Released(rows, outcomes, ran, id)
    ensures Stored(rows[id], tables) && DependenciesSucceeded(rows[id], tables)
  {
    assert RowsAfter(rows, outcomes, ran)[id] == rows[id];
    assert WaitsInside(rows, id);
    forall d | d in rows[id].dependencies ensures d in tables.tasks && tables.tasks[d].state == TaskState.Succeeded {
      assert d in RowsAfter(rows, outcomes, ran);
    }
  }

  lemma OneMoreRan(tables: Tables, after: Tables, others: map<TaskId, RunTask>, rows: map<TaskId, RunTask>,
                   outcomes: TaskId -> RunnerResult, ran: set<TaskId>, id: TaskId)
    requires Holds(tables, others, rows, outcomes, ran) && id in rows
    requires after.tasks == tables.tasks[id := rows[id].(state := StateAfter(outcomes(id)))]
    ensures Holds(after, others, rows, outcomes, ran + {id})
  {
  }

  // --- one task --------------------------------------------------------------------------------------

  /** An exception leaves the task where the last committed move put it. */
  ghost predicate Interrupted(before: map<TaskId, RunTask>, after: map<TaskId, RunTask>, task: RunTask) {
    || after == before
    || after == before[task.id := task.(state := TaskState.Ready)]
    || after == before[task.id := task.(state := TaskState.Running)]
  }

  lemma Overwrite<K, V>(m: map<K, V>, k: K, a: V, b: V)
    ensures m[k := a][k := b] == m[k := b]
  {
  }

  method Begin(repo: RunRepository, planned: RunTask, token: CancellationToken, ghost start: nat, ghost run: RunId)
    returns (r: Result<RunTask, RunError>)
    requires repo.Valid() && KeyedById(repo.tables) && Trace(repo.history, start, run)
    requires Stored(planned, repo.tables) && planned.state == TaskState.Planned
    requires DependenciesSucceeded(planned, repo.tables)
    modifies repo, token
    ensures repo.Valid() && KeyedById(repo.tables) && (token.Never() <==> old(token.Never()))
    ensures Trace(repo.history, start, run) && old(repo.history) <= repo.history
    ensures repo.tables.runs == old(repo.tables.runs)
    ensures r.Ok? ==> r.value == planned.(state := TaskState.Running)
    ensures r.Ok? ==> repo.tables.tasks == old(repo.tables.tasks)[planned.id := r.value]
    ensures r.Ok? ==> DependenciesSucceeded(planned, repo.tables)
    ensures r.Err? ==> Interrupted(old(repo.tables.tasks), repo.tables.tasks, planned)
    ensures old(token.Never()) ==> r.Ok?
  {
    var task :- Move(repo, planned, TaskState.Ready, "", token, start, run);
    Overwrite(old(repo.tables.tasks), planned.id, task, planned.(state := TaskState.Running));
    r := Move(repo, task, TaskState.Running, "", token, start, run);
  }

  method Finish(repo: RunRepository, task: RunTask, outcome: RunnerResult, token: CancellationToken,
                ghost start: nat, ghost run: RunId)
    returns (r: Result<RunTask, RunError>)
    requires repo.Valid() && KeyedById(repo.tables) && Trace(repo.history, start, run)
    requires Stored(task, repo.tables) && task.state == TaskState.Running
    requires DependenciesSucceeded(task, repo.tables)
    modifies repo, token
    ensures repo.Valid() && KeyedById(repo.tables) && (token.Never() <==> old(token.Never()))
    ensures Trace(repo.history, start, run) && old(repo.history) <= repo.history
    ensures repo.tables.runs == old(repo.tables.runs)
    ensures r.Ok? ==> r.value == task.(state := StateAfter(outcome))
    ensures r.Ok? ==> repo.tables.tasks == old(repo.tables.tasks)[task.id := r.value]
    ensures r.Err? ==> repo.tables.tasks == old(repo.tables.tasks)
    ensures old(token.Never()) ==> r.Ok?
  {
    match outcome {
      case ThrowsCancelled =>
        var none := new CancellationToken(None);
        r := Move(repo, task, TaskState.Cancelled, "cancelled by request", none, start, run);
      case Throws(message) =>
        r := Move(repo, task, TaskState.Failed, message, token, start, run);
      case Success(_) =>
        r := Move(repo, task, TaskState.Succeeded, "", token, start, run);
      case Failure(detail) =>
        r := Move(repo, task, TaskState.Failed, detail, token, start, run);
    }
  }

  method RunOne(repo: RunRepository, runner: TaskRunner, planned: RunTask, token: CancellationToken,
                ghost start: nat, ghost run: RunId)
    returns (r: Result<(), RunError>)
    requires repo.Valid() && KeyedById(repo.tables) && Trace(repo.history, start, run)
    requires Stored(planned, repo.tables) && planned.state == TaskState.Planned
    requires DependenciesSucceeded(planned, repo.tables)
    modifies repo, runner, token
    ensures repo.Valid() && KeyedById(repo.tables) && (token.Never() <==> old(token.Never()))
    ensures Trace(repo.history, start, run) && old(repo.history) <= repo.history
    ensures repo.tables.runs == old(repo.tables.runs)
    ensures r.Ok? ==>
      var ended := planned.(state := StateAfter(runner.outcomes(planned.id)));
      repo.tables.tasks == old(repo.tables.tasks)[planned.id := ended]
    ensures r.Ok? ==> runner.calls == old(runner.calls) + [planned.id]
    ensures r.Err? ==> Interrupted(old(repo.tables.tasks), repo.tables.tasks, planned)
    ensures r.Err? ==> runner.calls == old(runner.calls) || runner.calls == old(runner.calls) + [planned.id]
    ensures old(token.Never()) ==> r.Ok?
  {
    var task :- Begin(repo, planned, token, start, run);
    var outcome := runner.RunAsync(task);
    Overwrite(old(repo.tables.tasks), planned.id, task, task.(state := StateAfter(outcome)));
    var _ :- Finish(repo, task, outcome, token, start, run);
    return Ok(());
  }

  // --- one round --------------------------------------------------------------------------------------

  ghost function IdsOf(tasks: seq<RunTask>): set<TaskId> {
    set i | 0 <= i < |tasks| :: tasks[i].id
  }

  /** Tasks of the run that have not begun and that everything they wait for has released. */
  ghost predicate ReadyToRun(ready: seq<RunTask>, rows: map<TaskId, RunTask>, outcomes: TaskId -> RunnerResult,
                             ran: set<TaskId>) {
    && DistinctIds(ready)
    && forall i :: 0 <= i < |ready| ==>
      && ready[i].id in rows && ready[i] == rows[ready[i].id] && ready[i].id !in ran
      && Released(rows, outcomes, ran, ready[i].id)
  }

  lemma ListedRow(current: seq<RunTask>, tables: Tables, others: map<TaskId, RunTask>, rows: map<TaskId, RunTask>,
                  outcomes: TaskId -> RunnerResult, run: RunId, ran: set<TaskId>, id: TaskId)
    requires Lists(current, tables, run) && PlannedRows(rows, run) && Holds(tables, others, rows, outcomes, ran)
    requires forall other :: other in others ==> others[other].runId != run
    ensures id in ById(current) <==> id in rows
    ensures id in rows ==> ById(current)[id] == RowsAfter(rows, outcomes, ran)[id]
  {
    ListedOwn(current, tables, others, RowsAfter(rows, outcomes, ran), run, id);
  }

  /** Of all stored rows, a listing shows exactly those of the run. */
  lemma ListedOwn(current: seq<RunTask>, tables: Tables, others: map<TaskId, RunTask>, own: map<TaskId, RunTask>,
                  run: RunId, id: TaskId)
    requires Lists(current, tables, run) && tables.tasks == others + own
    requires forall other :: other in others ==> others[other].runId != run
    requires forall key :: key in own ==> own[key].runId == run
    ensures id in ById(current) <==> id in own
    ensures id in own ==> ById(current)[id] == own[id]
  {
    if i :| 0 <= i < |current| && current[i].id == id {
      assert Stored(current[i], tables);
    }
    if id in own {
      assert tables.tasks[id] == own[id];
      var i :| 0 <= i < |current| && current[i].id == id;
      assert Stored(current[i], tables);
    }
  }

  /** The listing by id shows the run's rows as they stand. */
  ghost predicate Shows(current: seq<RunTask>, byId: map<TaskId, RunTask>, rows: map<TaskId, RunTask>,
                        outcomes: TaskId -> RunnerResult, ran: set<TaskId>)
  {
    && DistinctIds(current) && byId == ById(current)
    && (forall id :: id in byId <==> id in rows)
    && (forall id :: id in rows ==> byId[id] == RowsAfter(rows, outcomes, ran)[id])
  }

  lemma ReadyRow(current: seq<RunTask>, byId: map<TaskId, RunTask>, rows: map<TaskId, RunTask>,
                 outcomes: TaskId -> RunnerResult, ran: set<TaskId>, row: RunTask)
    requires Shows(current, byId, rows, outcomes, ran) && row in ReadyAmong(current, byId)
    requires forall id :: id in rows ==> rows[id].state == TaskState.Planned
    ensures row.id in rows && row == rows[row.id] && row.id !in ran && Released(rows, outcomes, ran, row.id)
  {
    ReadyAmongMembers(current, byId, row);
    var i :| 0 <= i < |current| && current[i] == row;
    assert byId[row.id] == row;
    assert row == RowsAfter(rows, outcomes, ran)[row.id] && row == rows[row.id];
    forall d | d in rows[row.id].dependencies ensures d in ran && StateAfter(outcomes(d)) == TaskState.Succeeded {
      assert d in row.dependencies;
      assert byId[d] == RowsAfter(rows, outcomes, ran)[d];
    }
  }

  lemma NextRow(current: seq<RunTask>, byId: map<TaskId, RunTask>, rows: map<TaskId, RunTask>,
                outcomes: TaskId -> RunnerResult, ran: set<TaskId>, id: TaskId, run: RunId)
    requires Shows(current, byId, rows, outcomes, ran)
    requires PlannedRows(rows, run)
    requires id in rows && id !in ran && Released(rows, outcomes, ran, id)
    ensures id in IdsOf(ReadyAmong(current, byId))
  {
    var row := rows[id];
    assert WaitsInside(rows, id);
    assert byId[id] == RowsAfter(rows, outcomes, ran)[id] == row;
    forall d | d in row.dependencies ensures d in byId && byId[d].state == TaskState.Succeeded {
      assert byId[d] == RowsAfter(rows, outcomes, ran)[d];
    }
    assert id in byId;
    var i :| 0 <= i < |current| && current[i].id == id;
    ReadyAmongMembers(current, byId, row);
    var ready := ReadyAmong(current, byId);
    var j :| 0 <= j < |ready| && ready[j] == row;
    assert ready[j].id == id;
  }

  /** The next level after k rounds: what has not run and is released by what has. */
  lemma LevelMeansReleased(rows: map<TaskId, RunTask>, outcomes: TaskId -> RunnerResult, run: RunId, k: nat, id: TaskId)
    requires PlannedRows(rows, run)
    ensures id in Level(GraphOfRows(rows), Unsuccessful(rows, outcomes), k) <==>
      id in rows && id !in RanBy(rows, outcomes, k) && Released(rows, outcomes, RanBy(rows, outcomes, k), id)
  {
    var g := GraphOfRows(rows);
    var bad := Unsuccessful(rows, outcomes);
    var ran := RanBy(rows, outcomes, k);
    if id in rows {
      assert WaitsInside(rows, id);
      assert id in DoneAfter(g, bad, k + 1) <==> forall d :: d in g[id] ==> d in ran && d !in bad;
      assert forall d :: d in g[id] ==> (d in bad <==> StateAfter(outcomes(d)) != TaskState.Succeeded);
    }
  }

  lemma ReadyIsReleased(current: seq<RunTask>, byId: map<TaskId, RunTask>, rows: map<TaskId, RunTask>,
                        outcomes: TaskId -> RunnerResult, run: RunId, ran: set<TaskId>)
    requires Shows(current, byId, rows, outcomes, ran) && PlannedRows(rows, run)
    ensures ReadyToRun(ReadyAmong(current, byId), rows, outcomes, ran)
    ensures forall id :: id in IdsOf(ReadyAmong(current, byId)) <==>
      id in rows && id !in ran && Released(rows, outcomes, ran, id)
  {
    var ready := ReadyAmong(current, byId);
    ReadyAmongDistinct(current, byId);
    forall i | 0 <= i < |ready|
      ensures ready[i].id in rows && ready[i] == rows[ready[i].id] && ready[i].id !in ran
      ensures Released(rows, outcomes, ran, ready[i].id)
    {
      ReadyRow(current, byId, rows, outcomes, ran, ready[i]);
    }
    forall id | id in rows && id !in ran && Released(rows, outcomes, ran, id) ensures id in IdsOf(ready) {
      NextRow(current, byId, rows, outcomes, ran, id, run);
    }
  }

  /** A later task of the round is as ready as it was before the earlier ones ran. */
  lemma StillReady(ready: seq<RunTask>, i: nat, rows: map<TaskId, RunTask>, outcomes: TaskId -> RunnerResult,
                   ran: set<TaskId>)
    requires ReadyToRun(ready, rows, outcomes, ran) && i < |ready|
    ensures ready[i].id in rows && ready[i] == rows[ready[i].id] && ready[i].id !in ran + IdsOf(ready[..i])
    ensures Released(rows, outcomes, ran + IdsOf(ready[..i]), ready[i].id)
    ensures IdsOf(ready[..i + 1]) == IdsOf(ready[..i]) + {ready[i].id}
  {
  }

  /** No task was ever handed to the runner twice. */
  ghost predicate AtMostOnce(calls: seq<TaskId>, c: nat) {
    c <= |calls| && forall id :: multiset(calls[c..])[id] <= 1
  }

  lemma OnceIsAtMost(calls: seq<TaskId>, c: nat, ran: set<TaskId>)
    requires CalledOnce(calls, c, ran)
    ensures AtMostOnce(calls, c)
  {
  }

  method RunNext(repo: RunRepository, runner: TaskRunner, planned: RunTask, token: CancellationToken,
                 ghost start: nat, ghost run: RunId, ghost others: map<TaskId, RunTask>,
                 ghost rows: map<TaskId, RunTask>, ghost ran: set<TaskId>, ghost c: nat)
    returns (r: Result<(), RunError>)
    requires repo.Valid() && KeyedById(repo.tables) && Trace(repo.history, start, run)
    requires PlannedRows(rows, run) && Holds(repo.tables, others, rows, runner.outcomes, ran)
    requires planned.id in rows && planned == rows[planned.id] && planned.id !in ran
    requires Released(rows, runner.outcomes, ran, planned.id) && CalledOnce(runner.calls, c, ran)
    modifies repo, runner, token
    ensures repo.Valid() && KeyedById(repo.tables) && (token.Never() <==> old(token.Never()))
    ensures Trace(repo.history, start, run) && old(repo.history) <= repo.history
    ensures repo.tables.runs == old(repo.tables.runs)
    ensures r.Ok? ==> Holds(repo.tables, others, rows, runner.outcomes, ran + {planned.id})
    ensures r.Ok? ==> CalledOnce(runner.calls, c, ran + {planned.id})
    ensures AtMostOnce(runner.calls, c)
    ensures old(token.Never()) ==> r.Ok?
  {
    ReleasedIsSafe(repo.tables, others, rows, runner.outcomes, ran, planned.id, run);
    CallOneMore(runner.calls, c, ran, planned.id);
    ghost var before := repo.tables;
    r := RunOne(repo, runner, planned, token, start, run);
    if r.Ok? {
      OneMoreRan(before, repo.tables, others, rows, runner.outcomes, ran, planned.id);
    }
  }

  method RunRound(repo: RunRepository, runner: TaskRunner, ready: seq<RunTask>, token: CancellationToken,
                  ghost start: nat, ghost run: RunId, ghost others: map<TaskId, RunTask>,
                  ghost rows: map<TaskId, RunTask>, ghost ran: set<TaskId>, ghost c: nat)
    returns (r: Result<(), RunError>)
    requires repo.Valid() && KeyedById(repo.tables) && Trace(repo.history, start, run)
    requires PlannedRows(rows, run) && Holds(repo.tables, others, rows, runner.outcomes, ran)
    requires ReadyToRun(ready, rows, runner.outcomes, ran) && CalledOnce(runner.calls, c, ran)
    modifies repo, runner, token
    ensures repo.Valid() && KeyedById(repo.tables) && (token.Never() <==> old(token.Never()))
    ensures Trace(repo.history, start, run) && old(repo.history) <= repo.history
    ensures repo.tables.runs == old(repo.tables.runs)
    ensures r.Ok? ==> Holds(repo.tables, others, rows, runner.outcomes, ran + IdsOf(ready))
    ensures r.Ok? ==> CalledOnce(runner.calls, c, ran + IdsOf(ready))
    ensures AtMostOnce(runner.calls, c)
    ensures old(token.Never()) ==> r.Ok?
  {
    assert ran + IdsOf(ready[..0]) == ran;
    for i := 0 to |ready|
      invariant repo.Valid() && KeyedById(repo.tables) && (token.Never() <==> old(token.Never()))
      invariant Trace(repo.history, start, run) && old(repo.history) <= repo.history
      invariant repo.tables.runs == old(repo.tables.runs)
      invariant Holds(repo.tables, others, rows, runner.outcomes, ran + IdsOf(ready[..i]))
      invariant CalledOnce(runner.calls, c, ran + IdsOf(ready[..i]))
    {
      StillReady(ready, i, rows, runner.outcomes, ran);
      var _ :- RunNext(repo, runner, ready[i], token, start, run, others, rows, ran + IdsOf(ready[..i]), c);
      assert ran + IdsOf(ready[..i]) + {ready[i].id} == ran + IdsOf(ready[..i + 1]);
    }
    assert ready[..|ready|] == ready;
    return Ok(());
  }

  // --- scheduling ----------------------------------------------------------------------------------------

  lemma TraceOfSave(history: seq<Tables>, start: nat, run: RunId, row: RunTask)
    requires Trace(history, start, run)
    requires row.id !in history[|history| - 1].tasks && row.state == TaskState.Planned
    ensures var t := history[|history| - 1];
            Trace(history + [t.(tasks := t.tasks[row.id := row])], start, run)
  {
    TraceStep(history, start, run, Step.SaveTask(row));
  }

  /** Rows not stored yet, each under an id of its own. */
  ghost predicate NewRows(tasks: seq<RunTask>, stored: map<TaskId, RunTask>) {
    && DistinctIds(tasks)
    && forall i :: 0 <= i < |tasks| ==> tasks[i].id !in stored && tasks[i].state == TaskState.Planned
  }

  lemma ByIdGrows(tasks: seq<RunTask>, i: nat)
    requires DistinctIds(tasks) && i < |tasks|
    ensures ById(tasks[..i + 1]) == ById(tasks[..i])[tasks[i].id := tasks[i]]
    ensures tasks[i].id !in ById(tasks[..i])
  {
    assert forall k :: 0 <= k <= i ==> tasks[..i + 1][k] == tasks[k];
    assert forall k :: 0 <= k < i ==> tasks[..i][k] == tasks[k];
  }

  method SaveNew(repo: RunRepository, task: RunTask, token: CancellationToken, ghost start: nat, ghost run: RunId)
    returns (r: Result<(), RunError>)
    requires repo.Valid() && KeyedById(repo.tables) && Trace(repo.history, start, run)
    requires task.id !in repo.tables.tasks && task.state == TaskState.Planned
    modifies repo, token
    ensures repo.Valid() && KeyedById(repo.tables) && (token.Never() <==> old(token.Never()))
    ensures Trace(repo.history, start, run) && old(repo.history) <= repo.history
    ensures repo.tables.runs == old(repo.tables.runs)
    ensures repo.tables.tasks == if r.Ok? then old(repo.tables.tasks)[task.id := task] else old(repo.tables.tasks)
    ensures old(token.Never()) ==> r.Ok?
  {
    TraceOfSave(repo.history, start, run, task);
    r := repo.SaveTask(task, token);
  }

  lemma Extend<K, V>(a: map<K, V>, b: map<K, V>, k: K, v: V)
    ensures a + b[k := v] == (a + b)[k := v]
  {
  }

  /** All rows stored and the run Ready, or some first few of the rows and the run as it was. */
  method Schedule(repo: RunRepository, run: Run, tasks: seq<RunTask>, token: CancellationToken, ghost start: nat)
    returns (r: Result<Run, RunError>)
    requires repo.Valid() && KeyedById(repo.tables) && Trace(repo.history, start, run.id)
    requires run.id in repo.tables.runs && repo.tables.runs[run.id] == run
    requires NewRows(tasks, repo.tables.tasks)
    modifies repo, token
    ensures repo.Valid() && KeyedById(repo.tables) && (token.Never() <==> old(token.Never()))
    ensures Trace(repo.history, start, run.id) && old(repo.history) <= repo.history
    ensures r.Ok? ==> repo.tables.tasks == old(repo.tables.tasks) + ById(tasks)
    ensures r.Err? ==> exists i :: 0 <= i <= |tasks| && repo.tables.tasks == old(repo.tables.tasks) + ById(tasks[..i])
    ensures r.Ok? ==> r.value == run.(state := RunState.Ready)
    ensures r.Ok? ==> repo.tables.runs == old(repo.tables.runs)[run.id := r.value]
    ensures r.Err? ==> repo.tables.runs == old(repo.tables.runs)
    ensures old(token.Never()) && CanMoveRun(run.state, RunState.Ready) ==> r.Ok?
  {
    var _ :- SaveAll(repo, run.id, tasks, token, start);
    assert tasks[..|tasks|] == tasks;
    r := MoveRunTo(repo, run, EventType.StateChange, RunState.Ready, "task_count", token, start);
  }

  method SaveAll(repo: RunRepository, ghost run: RunId, tasks: seq<RunTask>, token: CancellationToken, ghost start: nat)
    returns (r: Result<(), RunError>)
    requires repo.Valid() && KeyedById(repo.tables) && Trace(repo.history, start, run)
    requires NewRows(tasks, repo.tables.tasks)
    modifies repo, token
    ensures repo.Valid() && KeyedById(repo.tables) && (token.Never() <==> old(token.Never()))
    ensures Trace(repo.history, start, run) && old(repo.history) <= repo.history
    ensures r.Ok? ==> repo.tables.tasks == old(repo.tables.tasks) + ById(tasks)
    ensures r.Err? ==> exists i :: 0 <= i <= |tasks| && repo.tables.tasks == old(repo.tables.tasks) + ById(tasks[..i])
    ensures repo.tables.runs == old(repo.tables.runs)
    ensures old(token.Never()) ==> r.Ok?
  {
    ghost var before := repo.tables.tasks;
    assert before + ById(tasks[..0]) == before;
    for i := 0 to |tasks|
      invariant repo.Valid() && KeyedById(repo.tables) && (token.Never() <==> old(token.Never()))
      invariant Trace(repo.history, start, run) && old(repo.history) <= repo.history
      invariant repo.tables.runs == old(repo.tables.runs)
      invariant repo.tables.tasks == before + ById(tasks[..i])
    {
      ByIdGrows(tasks, i);
      Extend(before, ById(tasks[..i]), tasks[i].id, tasks[i]);
      var _ :- SaveNew(repo, tasks[i], token, start, run);
    }
    assert tasks[..|tasks|] == tasks;
    return Ok(());
  }

  // --- the loop ------------------------------------------------------------------------------------------

  lemma AsManyAsRows(rows: map<TaskId, RunTask>)
    ensures |GraphOfRows(rows)| == |rows|
  {
    assert GraphOfRows(rows).Keys == rows.Keys;
    assert |GraphOfRows(rows)| == |GraphOfRows(rows).Keys| && |rows| == |rows.Keys|;
  }

  /** Once a round finds nobody ready, everybody who ever will has run. */
  lemma NobodyElse(rows: map<TaskId, RunTask>, outcomes: TaskId -> RunnerResult, k: nat)
    requires Level(GraphOfRows(rows), Unsuccessful(rows, outcomes), k) == {}
    ensures RanBy(rows, outcomes, k) == RanBy(rows, outcomes, |rows|)
  {
    var g, bad := GraphOfRows(rows), Unsuccessful(rows, outcomes);
    AsManyAsRows(rows);
    EmptyLevelIsTheLast(g, bad, k);
  }

  /** The tasks that can run next: not run yet, and released by those that have. */
  ghost predicate IsNext(batch: set<TaskId>, rows: map<TaskId, RunTask>, outcomes: TaskId -> RunnerResult,
                         ran: set<TaskId>) {
    forall id :: id in batch <==> id in rows && id !in ran && Released(rows, outcomes, ran, id)
  }

  lemma NextIsLevel(batch: set<TaskId>, rows: map<TaskId, RunTask>, outcomes: TaskId -> RunnerResult, run: RunId,
                    k: nat)
    requires PlannedRows(rows, run) && IsNext(batch, rows, outcomes, RanBy(rows, outcomes, k))
    ensures batch == Level(GraphOfRows(rows), Unsuccessful(rows, outcomes), k)
  {
    forall id { LevelMeansReleased(rows, outcomes, run, k, id); }
  }

  lemma ListedReady(current: seq<RunTask>, tables: Tables, others: map<TaskId, RunTask>, rows: map<TaskId, RunTask>,
                    outcomes: TaskId -> RunnerResult, run: RunId, ran: set<TaskId>)
    requires Lists(current, tables, run) && PlannedRows(rows, run) && Holds(tables, others, rows, outcomes, ran)
    requires forall other :: other in others ==> others[other].runId != run
    ensures ReadyToRun(ReadyTasks(current), rows, outcomes, ran)
    ensures IsNext(IdsOf(ReadyTasks(current)), rows, outcomes, ran)
  {
    var byId := ById(current);
    forall id ensures id in byId <==> id in rows ensures id in rows ==> byId[id] == RowsAfter(rows, outcomes, ran)[id] {
      ListedRow(current, tables, others, rows, outcomes, run, ran, id);
    }
    ReadyIsReleased(current, byId, rows, outcomes, run, ran);
  }

  /** Lists the tasks and runs those that are ready; the batch is empty when nobody is. */
  method TakeRound(repo: RunRepository, runner: TaskRunner, run: Run, token: CancellationToken, ghost start: nat,
                   ghost others: map<TaskId, RunTask>, ghost rows: map<TaskId, RunTask>, ghost c: nat,
                   ghost ran: set<TaskId>)
    returns (r: Result<bool, RunError>, ghost batch: set<TaskId>)
    requires repo.Valid() && KeyedById(repo.tables) && Trace(repo.history, start, run.id)
    requires PlannedRows(rows, run.id) && Holds(repo.tables, others, rows, runner.outcomes, ran)
    requires forall other :: other in others ==> others[other].runId != run.id
    requires CalledOnce(runner.calls, c, ran)
    modifies repo, runner, token
    ensures repo.Valid() && KeyedById(repo.tables) && (token.Never() <==> old(token.Never()))
    ensures Trace(repo.history, start, run.id) && old(repo.history) <= repo.history
    ensures repo.tables.runs == old(repo.tables.runs)
    ensures AtMostOnce(runner.calls, c)
    ensures r.Ok? ==> IsNext(batch, rows, runner.outcomes, ran) && (r.value <==> batch != {})
    ensures r.Ok? ==> Holds(repo.tables, others, rows, runner.outcomes, ran + batch)
    ensures r.Ok? ==> CalledOnce(runner.calls, c, ran + batch)
    ensures old(token.Never()) ==> r.Ok?
  {
    batch := {};
    var current := repo.ListTasks(run.id, token);
    if current.Err? {
      return Err(current.error), batch;
    }
    ListedReady(current.value, repo.tables, others, rows, runner.outcomes, run.id, ran);
    var ready := ReadyTasks(current.value);
    batch := IdsOf(ready);
    if |ready| == 0 {
      assert batch == {} && ran + batch == ran;
      return Ok(false), batch;
    }
    assert ready[0].id in batch;
    var done := RunRound(repo, runner, ready, token, start, run.id, others, rows, ran, c);
    if done.Err? {
      return Err(done.error), batch;
    }
    return Ok(true), batch;
  }

  /** The first k levels of the run's graph, as the engine meets them. */
  ghost function FirstLevels(rows: map<TaskId, RunTask>, outcomes: TaskId -> RunnerResult, k: nat): seq<set<TaskId>> {
    if k == 0 then []
    else FirstLevels(rows, outcomes, k - 1) + [Level(GraphOfRows(rows), Unsuccessful(rows, outcomes), k - 1)]
  }

  /** Where the loop stands: these levels have run, and these are their tasks. */
  ghost predicate Reached(rows: map<TaskId, RunTask>, outcomes: TaskId -> RunnerResult, batches: seq<set<TaskId>>,
                          ran: set<TaskId>) {
    batches == FirstLevels(rows, outcomes, |batches|) && {} !in batches && ran == RanBy(rows, outcomes, |batches|)
  }

  /** One turn of the loop ran this batch, and the loop stands one level further. */
  ghost predicate ReachedBy(rows: map<TaskId, RunTask>, outcomes: TaskId -> RunnerResult, k: nat, ran: set<TaskId>,
                            batch: set<TaskId>) {
    && batch == Level(GraphOfRows(rows), Unsuccessful(rows, outcomes), k)
    && ran + batch == RanBy(rows, outcomes, k + 1)
    && |ran| < |ran + batch| <= |rows|
  }

  lemma TurnReaches(rows: map<TaskId, RunTask>, outcomes: TaskId -> RunnerResult, run: RunId, k: nat, ran: set<TaskId>,
                    batch: set<TaskId>)
    requires PlannedRows(rows, run) && ran == RanBy(rows, outcomes, k)
    requires IsNext(batch, rows, outcomes, ran)
    ensures batch != {} ==> ReachedBy(rows, outcomes, k, ran, batch)
    ensures batch == {} ==> ran == RanBy(rows, outcomes, |rows|) && ran + batch == ran
  {
    NextIsLevel(batch, rows, outcomes, run, k);
    if batch != {} {
      AsManyAsRows(rows);
      RoundGrows(GraphOfRows(rows), Unsuccessful(rows, outcomes), k);
    } else {
      NobodyElse(rows, outcomes, k);
    }
  }

  lemma ReachesNext(rows: map<TaskId, RunTask>, outcomes: TaskId -> RunnerResult, batches: seq<set<TaskId>>,
                    ran: set<TaskId>, batch: set<TaskId>)
    requires Reached(rows, outcomes, batches, ran) && ReachedBy(rows, outcomes, |batches|, ran, batch)
    ensures Reached(rows, outcomes, batches + [batch], ran + batch)
  {
    assert |batches + [batch]| - 1 == |batches|;
    assert batch == {} ==> ran + batch == ran;
  }

  /** Told to stop, with nobody left to run, or one round further. */
  datatype Progress = Requested | Exhausted | More

  /** Looks whether to stop, and otherwise runs whoever is ready. */
  method TakeTurn(repo: RunRepository, runner: TaskRunner, run: Run, token: CancellationToken, ghost start: nat,
                  ghost others: map<TaskId, RunTask>, ghost rows: map<TaskId, RunTask>, ghost c: nat,
                  ghost ran: set<TaskId>)
    returns (r: Result<Progress, RunError>, ghost batch: set<TaskId>)
    requires repo.Valid() && KeyedById(repo.tables) && Trace(repo.history, start, run.id)
    requires PlannedRows(rows, run.id) && Holds(repo.tables, others, rows, runner.outcomes, ran)
    requires forall other :: other in others ==> others[other].runId != run.id
    requires CalledOnce(runner.calls, c, ran)
    modifies repo, runner, token
    ensures repo.Valid() && KeyedById(repo.tables) && (token.Never() <==> old(token.Never()))
    ensures Trace(repo.history, start, run.id) && old(repo.history) <= repo.history
    ensures repo.tables.runs == old(repo.tables.runs)
    ensures AtMostOnce(runner.calls, c)
    ensures r.Ok? ==> Holds(repo.tables, others, rows, runner.outcomes, ran + batch)
    ensures r.Ok? ==> CalledOnce(runner.calls, c, ran + batch)
    ensures r.Ok? && !r.value.Requested? ==> IsNext(batch, rows, runner.outcomes, ran)
    ensures r.Ok? ==> (r.value.More? <==> batch != {})
    ensures old(token.Never()) ==> r.Ok? && !r.value.Requested?
  {
    var requested := token.Poll();
    if requested {
      OnceIsAtMost(runner.calls, c, ran);
      assert ran + {} == ran;
      return Ok(Requested), {};
    }
    var more;
    more, batch := TakeRound(repo, runner, run, token, start, others, rows, c, ran);
    if more.Err? {
      return Err(more.error), batch;
    }
    return Ok(if more.value then More else Exhausted), batch;
  }

  /** One turn of the loop: looks whether to stop, and otherwise runs the next level. */
  method Turn(repo: RunRepository, runner: TaskRunner, run: Run, token: CancellationToken, ghost start: nat,
              ghost others: map<TaskId, RunTask>, ghost rows: map<TaskId, RunTask>, ghost c: nat,
              ghost ran: set<TaskId>, ghost k: nat)
    returns (r: Result<Progress, RunError>, ghost batch: set<TaskId>)
    requires repo.Valid() && KeyedById(repo.tables) && Trace(repo.history, start, run.id)
    requires PlannedRows(rows, run.id) && Holds(repo.tables, others, rows, runner.outcomes, ran)
    requires forall other :: other in others ==> others[other].runId != run.id
    requires CalledOnce(runner.calls, c, ran) && ran == RanBy(rows, runner.outcomes, k)
    modifies repo, runner, token
    ensures repo.Valid() && KeyedById(repo.tables) && (token.Never() <==> old(token.Never()))
    ensures Trace(repo.history, start, run.id) && old(repo.history) <= repo.history
    ensures repo.tables.runs == old(repo.tables.runs)
    ensures AtMostOnce(runner.calls, c)
    ensures r.Ok? ==> Holds(repo.tables, others, rows, runner.outcomes, ran + batch)
    ensures r.Ok? ==> CalledOnce(runner.calls, c, ran + batch)
    ensures r.Ok? && r.value.More? ==> ReachedBy(rows, runner.outcomes, k, ran, batch)
    ensures r.Ok? && !r.value.More? ==> ran + batch == ran
    ensures r.Ok? && r.value.Exhausted? ==> ran == RanBy(rows, runner.outcomes, |rows|)
    ensures old(token.Never()) ==> r.Ok? && !r.value.Requested?
  {
    r, batch := TakeTurn(repo, runner, run, token, start, others, rows, c, ran);
    if r.Ok? && !r.value.Requested? {
      TurnReaches(rows, runner.outcomes, run.id, k, ran, batch);
    }
  }

  /** Runs round after round, one level of the graph each, until told to stop or nobody is ready. */
  method RunLoop(repo: RunRepository, runner: TaskRunner, run: Run, token: CancellationToken, ghost start: nat,
                 ghost others: map<TaskId, RunTask>, ghost rows: map<TaskId, RunTask>, ghost c: nat)
    returns (r: Result<Progress, RunError>, ghost batches: seq<set<TaskId>>, ghost ran: set<TaskId>)
    requires repo.Valid() && KeyedById(repo.tables) && Trace(repo.history, start, run.id)
    requires PlannedRows(rows, run.id) && Holds(repo.tables, others, rows, runner.outcomes, {})
    requires forall other :: other in others ==> others[other].runId != run.id
    requires CalledOnce(runner.calls, c, {})
    modifies repo, runner, token
    ensures repo.Valid() && KeyedById(repo.tables) && (token.Never() <==> old(token.Never()))
    ensures Trace(repo.history, start, run.id) && old(repo.history) <= repo.history
    ensures repo.tables.runs == old(repo.tables.runs)
    ensures AtMostOnce(runner.calls, c)
    ensures Reached(rows, runner.outcomes, batches, ran)
    ensures r.Ok? ==> Holds(repo.tables, others, rows, runner.outcomes, ran) && CalledOnce(runner.calls, c, ran)
    ensures r.Ok? && r.value.Exhausted? ==> ran == RanBy(rows, runner.outcomes, |rows|)
    ensures old(token.Never()) ==> r.Ok? && r.value.Exhausted?
    ensures !(r.Ok? && r.value.More?)
  {
    r, batches, ran := Ok(More), [], {};
    while r.Ok? && r.value.More?
      invariant repo.Valid() && KeyedById(repo.tables) && (token.Never() <==> old(token.Never()))
      invariant Trace(repo.history, start, run.id) && old(repo.history) <= repo.history
      invariant repo.tables.runs == old(repo.tables.runs)
      invariant AtMostOnce(runner.calls, c)
      invariant Reached(rows, runner.outcomes, batches, ran)
      invariant r.Ok? ==> Holds(repo.tables, others, rows, runner.outcomes, ran) && CalledOnce(runner.calls, c, ran)
      invariant r.Ok? && r.value.Exhausted? ==> ran == RanBy(rows, runner.outcomes, |rows|)
      invariant old(token.Never()) ==> r.Ok? && !r.value.Requested?
      decreases |rows| - |ran|, if r.Ok? && r.value.More? then 1 else 0
    {
      ghost var batch;
      r, batch := Turn(repo, runner, run, token, start, others, rows, c, ran, |batches|);
      if r.Ok? && r.value.More? {
        ReachesNext(rows, runner.outcomes, batches, ran, batch);
        ran, batches := ran + batch, batches + [batch];
      }
    }
  }
}
