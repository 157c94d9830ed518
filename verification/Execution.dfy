/** Executing a whole plan, and what that comes to in the plan's own terms (RunEngine.ExecuteAsync). */
module Execution {
  import opened Wrappers
  import opened Domain
  import opened Graph
  import opened RunStore
  import opened Scheduler
  import opened RunEngine
  import opened Confluence
  import TaskGraph

  // --- the rows of a plan --------------------------------------------------------------------

  /** What one row takes from its node. */
  ghost predicate RowAt(task: PlanTask, id: TaskId, run: RunId, rewritten: map<TaskId, TaskId>, row: RunTask) {
    && row.id == id && row.runId == run && row.state == TaskState.Planned && Carries(row, task)
    && |row.dependencies| == |task.dependencies|
    && forall k :: 0 <= k < |task.dependencies| ==>
      task.dependencies[k] in rewritten && row.dependencies[k] == rewritten[task.dependencies[k]]
  }

  lemma RowsAt(tasks: seq<PlanTask>, ids: seq<TaskId>, run: RunId, now: Moment, rewritten: map<TaskId, TaskId>,
               rows: seq<RunTask>)
    requires |ids| == |tasks| && Translated(tasks, ids, run, now, rewritten, rows)
    ensures forall i :: 0 <= i < |tasks| ==> RowAt(tasks[i], ids[i], run, rewritten, rows[i])
  {
    forall i | 0 <= i < |tasks| ensures RowAt(tasks[i], ids[i], run, rewritten, rows[i]) {
      assert MaterializedAt(tasks[i], ids[i], run, now, rewritten, rows[i]);
    }
  }

  /** Node k of the plan and id k belong together. */
  ghost predicate Pairs(tasks: seq<PlanTask>, ids: seq<TaskId>, rewritten: map<TaskId, TaskId>) {
    && |ids| == |tasks|
    && (forall i :: 0 <= i < |tasks| ==> tasks[i].id in rewritten && rewritten[tasks[i].id] == ids[i])
    && (forall a {:trigger PairOf(tasks, ids, rewritten, a)} :: a in rewritten ==> PairOf(tasks, ids, rewritten, a))
  }

  ghost predicate PairOf(tasks: seq<PlanTask>, ids: seq<TaskId>, rewritten: map<TaskId, TaskId>, a: TaskId)
    requires |ids| == |tasks| && a in rewritten
  {
    exists i :: 0 <= i < |tasks| && tasks[i].id == a && ids[i] == rewritten[a]
  }

  lemma RewritingPairs(tasks: seq<PlanTask>, ids: seq<TaskId>)
    requires UniqueIds(tasks) && |ids| == |tasks|
    ensures Pairs(tasks, ids, Rewriting(tasks, ids))
  {
    var rewritten := Rewriting(tasks, ids);
    forall a | a in rewritten ensures PairOf(tasks, ids, rewritten, a) {
      var i :| 0 <= i < |tasks| && tasks[i].id == a;
      assert ids[i] == rewritten[a];
    }
  }

  ghost predicate RowsOf(tasks: seq<PlanTask>, ids: seq<TaskId>, run: RunId, rewritten: map<TaskId, TaskId>,
                         rows: seq<RunTask>) {
    && |ids| == |tasks| == |rows|
    && forall i {:trigger rows[i]} :: 0 <= i < |tasks| ==> RowAt(tasks[i], ids[i], run, rewritten, rows[i])
  }

  lemma RowIds(tasks: seq<PlanTask>, ids: seq<TaskId>, run: RunId, rewritten: map<TaskId, TaskId>, rows: seq<RunTask>)
    requires RowsOf(tasks, ids, run, rewritten, rows)
    ensures forall i :: 0 <= i < |rows| ==>
      rows[i].id == ids[i] && rows[i].runId == run && rows[i].state == TaskState.Planned
  {
  }

  lemma RowWaitsInside(tasks: seq<PlanTask>, ids: seq<TaskId>, run: RunId, rewritten: map<TaskId, TaskId>,
                       rows: seq<RunTask>, byId: map<TaskId, RunTask>, i: nat)
    requires Pairs(tasks, ids, rewritten) && RowsOf(tasks, ids, run, rewritten, rows) && i < |rows|
    requires forall k :: 0 <= k < |rows| ==> rows[k].id in byId
    ensures forall d :: d in rows[i].dependencies ==> d in byId
  {
    forall k | 0 <= k < |rows[i].dependencies| ensures rows[i].dependencies[k] in byId {
      DependencyRow(tasks, ids, run, rewritten, rows, i, k);
    }
  }

  lemma DistinctRows(ids: seq<TaskId>, rows: seq<RunTask>)
    requires FreshIds(ids, |rows|) && forall i :: 0 <= i < |rows| ==> rows[i].id == ids[i]
    ensures DistinctIds(rows)
  {
  }

  lemma PlannedById(rows: seq<RunTask>, run: RunId)
    requires DistinctIds(rows)
    requires forall i :: 0 <= i < |rows| ==> rows[i].runId == run && rows[i].state == TaskState.Planned
    requires forall i :: 0 <= i < |rows| ==> forall d :: d in rows[i].dependencies ==> d in ById(rows)
    ensures PlannedRows(ById(rows), run)
  {
    var byId := ById(rows);
    forall id | id in byId ensures WaitsInside(byId, id) {
      var i :| 0 <= i < |rows| && rows[i].id == id;
    }
  }

  lemma RowsArePlanned(tasks: seq<PlanTask>, ids: seq<TaskId>, run: RunId, rewritten: map<TaskId, TaskId>,
                       rows: seq<RunTask>)
    requires FreshIds(ids, |tasks|) && Pairs(tasks, ids, rewritten) && RowsOf(tasks, ids, run, rewritten, rows)
    ensures DistinctIds(rows) && PlannedRows(ById(rows), run)
  {
    RowIds(tasks, ids, run, rewritten, rows);
    DistinctRows(ids, rows);
    forall i | 0 <= i < |rows| ensures forall d :: d in rows[i].dependencies ==> d in ById(rows) {
      RowWaitsInside(tasks, ids, run, rewritten, rows, ById(rows), i);
    }
    PlannedById(rows, run);
  }

  lemma DependencyRow(tasks: seq<PlanTask>, ids: seq<TaskId>, run: RunId, rewritten: map<TaskId, TaskId>,
                      rows: seq<RunTask>, i: nat, k: nat)
    requires Pairs(tasks, ids, rewritten) && RowsOf(tasks, ids, run, rewritten, rows)
    requires i < |rows| && k < |rows[i].dependencies|
    ensures exists j :: 0 <= j < |rows| && rows[j].id == rows[i].dependencies[k]
  {
    var a := tasks[i].dependencies[k];
    assert PairOf(tasks, ids, rewritten, a);
    var j :| 0 <= j < |tasks| && tasks[j].id == a && ids[j] == rewritten[a];
    assert rows[j].id == ids[j];
  }

  /** Materializing is a graph isomorphism: nodes one to one, dependencies in place. */
  lemma MaterializeRenames(tasks: seq<PlanTask>, ids: seq<TaskId>, run: RunId, now: Moment, rows: seq<RunTask>)
    requires UniqueIds(tasks) && FreshIds(ids, |tasks|) && Materialized(tasks, ids, run, now, rows)
    ensures DistinctIds(rows)
    ensures Renames(Rewriting(tasks, ids), TaskGraph.GraphOf(tasks), GraphOfRows(ById(rows)))
  {
    var f := Rewriting(tasks, ids);
    RewritingPairs(tasks, ids);
    RowsAt(tasks, ids, run, now, f, rows);
    assert RowsOf(tasks, ids, run, f, rows);
    RowsArePlanned(tasks, ids, run, f, rows);
    RenamesByPairs(tasks, ids, run, f, rows, TaskGraph.GraphOf(tasks), ById(rows));
  }

  lemma PairsAreOneToOne(tasks: seq<PlanTask>, ids: seq<TaskId>, f: map<TaskId, TaskId>)
    requires FreshIds(ids, |tasks|) && Pairs(tasks, ids, f)
    ensures OneToOne(f)
  {
    forall a, b | a in f && b in f && f[a] == f[b] ensures a == b {
      assert PairOf(tasks, ids, f, a) && PairOf(tasks, ids, f, b);
    }
  }

  lemma RenamedByPair(tasks: seq<PlanTask>, ids: seq<TaskId>, run: RunId, f: map<TaskId, TaskId>, rows: seq<RunTask>,
                      g: Graph, byId: map<TaskId, RunTask>, a: TaskId)
    requires Pairs(tasks, ids, f) && RowsOf(tasks, ids, run, f, rows) && DistinctIds(rows) && byId == ById(rows)
    requires g.Keys == f.Keys
    requires forall i :: 0 <= i < |tasks| ==> tasks[i].id in g && g[tasks[i].id] == tasks[i].dependencies
    requires a in g
    ensures RenamedAt(f, g, GraphOfRows(byId), a)
  {
    assert PairOf(tasks, ids, f, a);
    var i :| 0 <= i < |tasks| && tasks[i].id == a && ids[i] == f[a];
    assert rows[i].id in byId && byId[rows[i].id] == rows[i];
  }

  lemma PairedValues(tasks: seq<PlanTask>, ids: seq<TaskId>, run: RunId, f: map<TaskId, TaskId>, rows: seq<RunTask>,
                     byId: map<TaskId, RunTask>)
    requires Pairs(tasks, ids, f) && RowsOf(tasks, ids, run, f, rows) && DistinctIds(rows) && byId == ById(rows)
    ensures f.Values == GraphOfRows(byId).Keys
  {
    assert GraphOfRows(byId).Keys == byId.Keys;
    forall id | id in byId ensures id in f.Values {
      var i :| 0 <= i < |rows| && rows[i].id == id;
      assert f[tasks[i].id] == id;
    }
    forall id | id in f.Values ensures id in byId {
      var a :| a in f && f[a] == id;
      assert PairOf(tasks, ids, f, a);
      var i :| 0 <= i < |tasks| && ids[i] == id;
      assert rows[i].id == id;
    }
  }

  lemma RenamesByPairs(tasks: seq<PlanTask>, ids: seq<TaskId>, run: RunId, f: map<TaskId, TaskId>, rows: seq<RunTask>,
                       g: Graph, byId: map<TaskId, RunTask>)
    requires FreshIds(ids, |tasks|) && Pairs(tasks, ids, f) && RowsOf(tasks, ids, run, f, rows)
    requires g.Keys == f.Keys
    requires forall i :: 0 <= i < |tasks| ==> tasks[i].id in g && g[tasks[i].id] == tasks[i].dependencies
    requires DistinctIds(rows) && byId == ById(rows)
    ensures Renames(f, g, GraphOfRows(byId))
  {
    var h := GraphOfRows(byId);
    forall a | a in g ensures RenamedAt(f, g, h, a) {
      RenamedByPair(tasks, ids, run, f, rows, g, byId, a);
    }
    PairsAreOneToOne(tasks, ids, f);
    PairedValues(tasks, ids, run, f, rows, byId);
  }

  // --- in the plan's own terms ------------------------------------------------------------------

  /** How the runner lets each node of the plan end, were it to run. */
  ghost function PlanResult(rewritten: map<TaskId, TaskId>, outcomes: TaskId -> RunnerResult): TaskId -> TaskState {
    t => if t in rewritten then StateAfter(outcomes(rewritten[t])) else TaskState.Failed
  }

  /** The only states the recursive specification allows the nodes of the plan. */
  ghost function PlanStates(tasks: seq<PlanTask>, ids: seq<TaskId>, outcomes: TaskId -> RunnerResult): map<TaskId,
                            TaskState>
    requires UniqueIds(tasks) && |ids| == |tasks|
  {
    Settled(TaskGraph.GraphOf(tasks), PlanResult(Rewriting(tasks, ids), outcomes))
  }

  /** The stored rows of the plan's nodes stand where the specification says. */
  ghost predicate EndsAs(stored: map<TaskId, RunTask>, tasks: seq<PlanTask>, ids: seq<TaskId>, states: map<TaskId,
                         TaskState>)
    requires |ids| == |tasks|
  {
    forall i :: 0 <= i < |tasks| ==>
      ids[i] in stored && tasks[i].id in states && stored[ids[i]].state == states[tasks[i].id]
  }

  lemma RowsSettle(rows: map<TaskId, RunTask>, outcomes: TaskId -> RunnerResult)
    ensures var result: TaskId -> TaskState := t => StateAfter(outcomes(t));
            var after := RowsAfter(rows, outcomes, RanBy(rows, outcomes, |rows|));
            var settled := Settled(GraphOfRows(rows), result);
            settled.Keys == rows.Keys && forall id :: id in rows ==> after[id].state == settled[id]
  {
    var result: TaskId -> TaskState := t => StateAfter(outcomes(t));
    var g := GraphOfRows(rows);
    assert Unreleasing(g, result) == Unsuccessful(rows, outcomes);
    assert g.Keys == rows.Keys && |g| == |g.Keys| && |rows| == |rows.Keys|;
  }

  ghost predicate EndLike(f: map<TaskId, TaskId>, after: map<TaskId, RunTask>, states: map<TaskId, TaskState>) {
    && f.Keys == states.Keys && f.Values == after.Keys
    && forall a :: a in f ==> f[a] in after && after[f[a]].state == states[a]
  }

  /** One renamed graph settles like the other, node by node, and in the same states over all. */
  lemma RowsSettleAs(f: map<TaskId, TaskId>, g: Graph, rows: map<TaskId, RunTask>, outcomes: TaskId -> RunnerResult,
                     after: map<TaskId, RunTask>, states: map<TaskId, TaskState>)
    requires Renames(f, g, GraphOfRows(rows)) && states == Settled(g, PlanResult(f, outcomes))
    requires after == RowsAfter(rows, outcomes, RanBy(rows, outcomes, |rows|))
    ensures EndLike(f, after, states)
  {
    var renamed: TaskId -> TaskState := t => StateAfter(outcomes(t));
    RowsSettle(rows, outcomes);
    SameKeys(rows, outcomes, RanBy(rows, outcomes, |rows|), g, PlanResult(f, outcomes));
    forall a | a in g ensures f[a] in after && after[f[a]].state == states[a] {
      SettledRenames(f, g, GraphOfRows(rows), PlanResult(f, outcomes), renamed, a);
    }
  }

  lemma PlanSettles(tasks: seq<PlanTask>, ids: seq<TaskId>, run: RunId, now: Moment, rows: seq<RunTask>,
                    outcomes: TaskId -> RunnerResult, after: map<TaskId, RunTask>)
    requires UniqueIds(tasks) && FreshIds(ids, |tasks|) && Materialized(tasks, ids, run, now, rows)
    requires DistinctIds(rows)
    requires after == RowsAfter(ById(rows), outcomes, RanBy(ById(rows), outcomes, |ById(rows)|))
    ensures EndsAs(after, tasks, ids, PlanStates(tasks, ids, outcomes))
    ensures (set id | id in after :: after[id].state) == PlanStates(tasks, ids, outcomes).Values
  {
    var f, states := Rewriting(tasks, ids), PlanStates(tasks, ids, outcomes);
    MaterializeRenames(tasks, ids, run, now, rows);
    RowsSettleAs(f, TaskGraph.GraphOf(tasks), ById(rows), outcomes, after, states);
    SameStates(f, after, states);
    RewritingPairs(tasks, ids);
    EndsByPairs(tasks, ids, f, after, states);
  }

  lemma EndsByPairs(tasks: seq<PlanTask>, ids: seq<TaskId>, f: map<TaskId, TaskId>, after: map<TaskId, RunTask>,
                    states: map<TaskId, TaskState>)
    requires Pairs(tasks, ids, f) && EndLike(f, after, states)
    ensures EndsAs(after, tasks, ids, states)
  {
  }

  lemma SameKeys(rows: map<TaskId, RunTask>, outcomes: TaskId -> RunnerResult, ran: set<TaskId>, g: Graph,
                 result: TaskId -> TaskState)
    ensures GraphOfRows(rows).Keys == rows.Keys == RowsAfter(rows, outcomes, ran).Keys
    ensures Settled(g, result).Keys == g.Keys
  {
  }

  lemma SameStates(f: map<TaskId, TaskId>, after: map<TaskId, RunTask>, states: map<TaskId, TaskState>)
    requires EndLike(f, after, states)
    ensures (set id | id in after :: after[id].state) == states.Values
  {
    forall id | id in after ensures after[id].state in states.Values {
      var a :| a in f && f[a] == id;
      assert states[a] in states.Values;
    }
    forall s | s in states.Values ensures exists id :: id in after && after[id].state == s {
      var a :| a in states && states[a] == s;
      assert f[a] in after;
    }
  }

  // --- the whole run -----------------------------------------------------------------------------

  /** Every stored node of the plan belongs to the run and waits for its own nodes. */
  ghost predicate RowsMatch(stored: map<TaskId, RunTask>, tasks: seq<PlanTask>, ids: seq<TaskId>, run: RunId,
                            rewritten: map<TaskId, TaskId>) {
    && |ids| == |tasks|
    && forall i {:trigger ids[i]} :: 0 <= i < |tasks| && ids[i] in stored ==>
      MatchesNode(stored[ids[i]], tasks[i], run, rewritten)
  }

  ghost predicate MatchesNode(row: RunTask, task: PlanTask, run: RunId, rewritten: map<TaskId, TaskId>) {
    && row.runId == run && Carries(row, task)
    && |row.dependencies| == |task.dependencies|
    && forall k :: 0 <= k < |task.dependencies| ==>
      task.dependencies[k] in rewritten && row.dependencies[k] == rewritten[task.dependencies[k]]
  }

  lemma StoredRow(rows: seq<RunTask>, others: map<TaskId, RunTask>, n: nat, i: nat)
    requires DistinctIds(rows) && n <= |rows| && i < |rows| && rows[i].id !in others
    requires rows[i].id in others + ById(rows[..n])
    ensures (others + ById(rows[..n]))[rows[i].id] == rows[i]
  {
    var j :| 0 <= j < n && rows[..n][j].id == rows[i].id;
    assert rows[..n][j] == rows[j];
  }

  lemma NewRowsMatch(tasks: seq<PlanTask>, ids: seq<TaskId>, run: RunId, rewritten: map<TaskId, TaskId>,
                     rows: seq<RunTask>, others: map<TaskId, RunTask>, n: nat)
    requires RowsOf(tasks, ids, run, rewritten, rows)
    requires DistinctIds(rows) && n <= |rows| && forall i :: 0 <= i < |ids| ==> ids[i] !in others
    ensures RowsMatch(others + ById(rows[..n]), tasks, ids, run, rewritten)
  {
    var stored := others + ById(rows[..n]);
    forall i | 0 <= i < |tasks| && ids[i] in stored ensures MatchesNode(stored[ids[i]], tasks[i], run, rewritten) {
      assert RowAt(tasks[i], ids[i], run, rewritten, rows[i]);
      StoredRow(rows, others, n, i);
    }
  }

  /** What a run may be asked to execute: ids nobody uses yet, and no rows from before. */
  ghost predicate Startable(tables: Tables, run: Run, tasks: seq<PlanTask>, ids: seq<TaskId>) {
    && run.id in tables.runs && tables.runs[run.id] == run
    && FreshIds(ids, |tasks|)
    && (forall i :: 0 <= i < |ids| ==> ids[i] !in tables.tasks)
    && (forall id :: id in tables.tasks ==> tables.tasks[id].runId != run.id)
  }

  /** Whether the plan can be turned into tasks at all. */
  ghost predicate Plannable(tasks: seq<PlanTask>) {
    UniqueIds(tasks) && Closed(TaskGraph.GraphOf(tasks))
  }

  /** The run was left in one of these states, and no other run was touched. */
  ghost predicate LeftIn(before: map<RunId, Run>, after: map<RunId, Run>, run: Run, states: set<RunState>) {
    exists state :: state in states && after == before[run.id := run.(state := state)]
  }

  lemma LeftAsIs(runs: map<RunId, Run>, run: Run, states: set<RunState>)
    requires run.id in runs && runs[run.id] == run && run.state in states
    ensures LeftIn(runs, runs, run, states)
  {
    assert runs == runs[run.id := run.(state := run.state)];
  }

  /** Plans and schedules: everything up to the first turn of the loop. */
  method Prepare(repo: RunRepository, created: Run, tasks: seq<PlanTask>, ids: seq<TaskId>, now: Moment,
                 token: CancellationToken, ghost start: nat)
    returns (r: Result<Run, RunError>, ghost rows: seq<RunTask>)
    requires repo.Valid() && KeyedById(repo.tables) && Trace(repo.history, start, created.id)
    requires Startable(repo.tables, created, tasks, ids)
    modifies repo, token
    ensures repo.Valid() && KeyedById(repo.tables) && (token.Never() <==> old(token.Never()))
    ensures Trace(repo.history, start, created.id) && old(repo.history) <= repo.history
    ensures UniqueIds(tasks) ==> RowsMatch(repo.tables.tasks, tasks, ids, created.id, Rewriting(tasks, ids))
    ensures r.Ok? ==> Plannable(tasks) && Materialized(tasks, ids, created.id, now, rows)
    ensures r.Ok? ==> DistinctIds(rows) && repo.tables.tasks == old(repo.tables.tasks) + ById(rows)
    ensures r.Ok? ==> r.value == created.(state := RunState.Running)
    ensures r.Ok? ==> repo.tables.runs == old(repo.tables.runs)[created.id := r.value]
    ensures r.Err? ==>
      LeftIn(old(repo.tables.runs), repo.tables.runs, created, {created.state, RunState.Planning, RunState.Ready})
    ensures old(token.Never()) && created.state == RunState.Created ==>
      if Plannable(tasks) then r.Ok?
      else r == Err(if UniqueIds(tasks) then KeyNotFound else DuplicateKey) &&
           repo.tables.runs == old(repo.tables.runs)[created.id := created.(state := RunState.Planning)]
  {
    rows := [];
    ghost var before := repo.tables.runs;
    LeftAsIs(before, created, {created.state, RunState.Planning, RunState.Ready});
    var run := Start(repo, created, token, start);
    if run.Err? {
      return run, rows;
    }
    Overwrite(before, created.id, run.value, created.(state := RunState.Ready));
    var planned := Materialize(tasks, created.id, ids, now);
    if planned.Err? {
      return Err(planned.error), rows;
    }
    rows := planned.value;
    r := Enqueue(repo, run.value, tasks, ids, now, planned.value, token, start);
  }

  method Enqueue(repo: RunRepository, run: Run, ghost tasks: seq<PlanTask>, ghost ids: seq<TaskId>, ghost now: Moment,
                 rows: seq<RunTask>,
                 token: CancellationToken, ghost start: nat)
    returns (r: Result<Run, RunError>)
    requires repo.Valid() && KeyedById(repo.tables) && Trace(repo.history, start, run.id)
    requires Startable(repo.tables, run, tasks, ids)
    requires UniqueIds(tasks) && Materialized(tasks, ids, run.id, now, rows)
    modifies repo, token
    ensures repo.Valid() && KeyedById(repo.tables) && (token.Never() <==> old(token.Never()))
    ensures Trace(repo.history, start, run.id) && old(repo.history) <= repo.history
    ensures RowsMatch(repo.tables.tasks, tasks, ids, run.id, Rewriting(tasks, ids))
    ensures DistinctIds(rows)
    ensures r.Err? ==>
      || repo.tables.runs == old(repo.tables.runs)
      || repo.tables.runs == old(repo.tables.runs)[run.id := run.(state := RunState.Ready)]
    ensures r.Ok? ==> repo.tables.tasks == old(repo.tables.tasks) + ById(rows)
    ensures r.Ok? ==> r.value == run.(state := RunState.Running)
    ensures r.Ok? ==> repo.tables.runs == old(repo.tables.runs)[run.id := r.value]
    ensures old(token.Never()) && run.state == RunState.Planning ==> r.Ok?
  {
    ghost var f := Rewriting(tasks, ids);
    MaterializeRenames(tasks, ids, run.id, now, rows);
    RowsAt(tasks, ids, run.id, now, f, rows);
    var scheduled :- Store(repo, run, tasks, ids, f, rows, token, start);
    Overwrite(repo.tables.runs, run.id, scheduled, scheduled.(state := RunState.Running));
    r := Advance(repo, scheduled, RunState.Running, token, start);
  }

  method Store(repo: RunRepository, run: Run, ghost tasks: seq<PlanTask>, ghost ids: seq<TaskId>,
               ghost rewritten: map<TaskId, TaskId>,
               rows: seq<RunTask>, token: CancellationToken, ghost start: nat)
    returns (r: Result<Run, RunError>)
    requires repo.Valid() && KeyedById(repo.tables) && Trace(repo.history, start, run.id)
    requires Startable(repo.tables, run, tasks, ids)
    requires RowsOf(tasks, ids, run.id, rewritten, rows) && DistinctIds(rows)
    modifies repo, token
    ensures repo.Valid() && KeyedById(repo.tables) && (token.Never() <==> old(token.Never()))
    ensures Trace(repo.history, start, run.id) && old(repo.history) <= repo.history
    ensures RowsMatch(repo.tables.tasks, tasks, ids, run.id, rewritten)
    ensures r.Err? ==> repo.tables.runs == old(repo.tables.runs)
    ensures r.Ok? ==> repo.tables.tasks == old(repo.tables.tasks) + ById(rows)
    ensures r.Ok? ==> r.value == run.(state := RunState.Ready)
    ensures r.Ok? ==> repo.tables.runs == old(repo.tables.runs)[run.id := r.value]
    ensures old(token.Never()) && run.state == RunState.Planning ==> r.Ok?
  {
    ghost var others := repo.tables.tasks;
    r := Schedule(repo, run, rows, token, start);
    if r.Ok? {
      assert rows[..|rows|] == rows;
      NewRowsMatch(tasks, ids, run.id, rewritten, rows, others, |rows|);
    } else {
      ghost var n :| 0 <= n <= |rows| && repo.tables.tasks == others + ById(rows[..n]);
      NewRowsMatch(tasks, ids, run.id, rewritten, rows, others, n);
    }
  }

  // --- what the log tells of an execution ----------------------------------------------------------------

  /**
   The log has told of the run that it is on its way, and nothing else; or so it had until the last event,
   which tells where the run went from Running.
   */
  ghost predicate Told(history: seq<Tables>, start: nat, run: RunId, end: RunState)
    requires start < |history|
  {
    if end == RunState.Running then ToldOnItsWay(history[start], history[|history| - 1], run)
    else
      && |history| >= 2 && start <= |history| - 2
      && ToldOnItsWay(history[start], history[|history| - 2], run)
      && JustMoved(history, run, RunState.Running, end)
  }

  lemma ToldInTheEnd(history: seq<Tables>, start: nat, run: RunId, end: RunState)
    requires start < |history| && Explained(history, start)
    requires run in history[|history| - 1].runs && history[|history| - 1].runs[run].state == end
    requires end != RunState.Running ==>
      |history| >= 2 && start <= |history| - 2 && JustMoved(history, run, RunState.Running, end)
    ensures Told(history, start, run, end)
  {
    RunningTold(history, start, if end == RunState.Running then |history| - 1 else |history| - 2, run);
  }

  // --- the loop and its end ---------------------------------------------------------------------------------

  /** The loop ended: on request everything still open is cancelled, and otherwise a verdict is given. */
  method Conclude(repo: RunRepository, run: Run, end: Progress, token: CancellationToken, ghost start: nat)
    returns (r: Result<Run, RunError>)
    requires repo.Valid() && KeyedById(repo.tables) && Trace(repo.history, start, run.id)
    requires run.id in repo.tables.runs && repo.tables.runs[run.id] == run && run.state == RunState.Running
    modifies repo, token
    ensures repo.Valid() && Trace(repo.history, start, run.id) && old(repo.history) <= repo.history
    ensures r.Ok? && end.Requested? ==>
      && repo.tables.tasks == ClosedTasks(old(repo.tables.tasks), run.id)
      && repo.tables.runs == old(repo.tables.runs)[run.id := run.(state := RunState.Cancelled)]
    ensures !end.Requested? ==> repo.tables.tasks == old(repo.tables.tasks)
    ensures r.Ok? && !end.Requested? ==>
      repo.tables.runs == old(repo.tables.runs)[run.id := Judged(run, StatesOf(old(repo.tables), run.id))]
    ensures r.Err? ==>
      || repo.tables.runs == old(repo.tables.runs)
      || repo.tables.runs == old(repo.tables.runs)[run.id := Judged(run, StatesOf(old(repo.tables), run.id))]
    ensures r.Ok? ==> run.id in repo.tables.runs && r.value == repo.tables.runs[run.id]
    ensures r.Ok? ==> Told(repo.history, start, run.id, r.value.state)
    ensures old(token.Never()) || end.Requested? ==> r.Ok?
  {
    if end.Requested? {
      var none := new CancellationToken(None);
      r := CancelRun(repo, run, "cancelled by request", none, start);
      ToldInTheEnd(repo.history, start, run.id, repo.tables.runs[run.id].state);
      return;
    }
    var _ :- EvaluateCompletion(repo, run, token, start);
    ToldInTheEnd(repo.history, start, run.id, repo.tables.runs[run.id].state);
    var found :- repo.FindRun(run.id, token);
    return Ok(if found.Some? then found.value else run);
  }

  /** A run moved to its verdict, if its tasks have come to one. */
  ghost function Judged(run: Run, states: set<TaskState>): Run {
    if Verdict(states).Some? then run.(state := Verdict(states).value) else run
  }

  lemma StatesOfRows(tables: Tables, others: map<TaskId, RunTask>, after: map<TaskId, RunTask>, run: RunId)
    requires tables.tasks == others + after
    requires forall other :: other in others ==> others[other].runId != run
    requires forall id :: id in after ==> after[id].runId == run
    ensures StatesOf(tables, run) == set id | id in after :: after[id].state
  {
    forall id | id in after ensures id in tables.tasks && tables.tasks[id] == after[id] {
    }
  }

  /** The batches are the levels of the graph, none of them empty and, at the end, none of them missing. */
  ghost predicate RunsLevels(batches: seq<set<TaskId>>, rows: map<TaskId, RunTask>, outcomes: TaskId -> RunnerResult,
                             all: bool) {
    && batches == FirstLevels(rows, outcomes, |batches|)
    && {} !in batches
    && (all ==> RanBy(rows, outcomes, |batches|) == RanBy(rows, outcomes, |rows|))
  }

  /** Runs the prepared rows to the end: to a verdict, or to a cancelled run when told to stop. */
  method Drive(repo: RunRepository, runner: TaskRunner, run: Run, token: CancellationToken, ghost start: nat,
               ghost others: map<TaskId, RunTask>, ghost rows: map<TaskId, RunTask>)
    returns (r: Result<Run, RunError>, ghost batches: seq<set<TaskId>>, ghost stopped: bool)
    requires repo.Valid() && KeyedById(repo.tables) && Trace(repo.history, start, run.id)
    requires run.id in repo.tables.runs && repo.tables.runs[run.id] == run && run.state == RunState.Running
    requires PlannedRows(rows, run.id) && repo.tables.tasks == others + rows
    requires forall other :: other in others ==> others[other].runId != run.id
    modifies repo, runner, token
    ensures repo.Valid() && Trace(repo.history, start, run.id) && old(repo.history) <= repo.history
    ensures AtMostOnce(runner.calls, |old(runner.calls)|)
    ensures RunsLevels(batches, rows, runner.outcomes, r.Ok? && !stopped)
    ensures r.Ok? ==> run.id in repo.tables.runs && r.value == repo.tables.runs[run.id]
    ensures r.Ok? ==> Told(repo.history, start, run.id, r.value.state)
    ensures r.Ok? && stopped ==>
      && repo.tables.tasks ==
         ClosedTasks(others + RowsAfter(rows, runner.outcomes, RanBy(rows, runner.outcomes, |batches|)), run.id)
      && r.value.state == RunState.Cancelled
    ensures (r.Ok? && !stopped) || (r.Err? && repo.tables.runs != old(repo.tables.runs)) ==>
      var after := RowsAfter(rows, runner.outcomes, RanBy(rows, runner.outcomes, |rows|));
      && repo.tables.tasks == others + after
      && repo.tables.runs == old(repo.tables.runs)[run.id := Judged(run, set id | id in after :: after[id].state)]
    ensures old(token.Never()) ==> r.Ok? && !stopped
  {
    NothingRanYet(rows, runner.outcomes, run.id);
    ghost var c := |runner.calls|;
    assert runner.calls[c..] == [];
    var end;
    ghost var ran;
    end, batches, ran := RunLoop(repo, runner, run, token, start, others, rows, c);
    stopped := end.Ok? && end.value.Requested?;
    if end.Err? {
      return Err(end.error), batches, stopped;
    }
    ghost var after := RowsAfter(rows, runner.outcomes, ran);
    StatesOfRows(repo.tables, others, after, run.id);
    r := Conclude(repo, run, end.value, token, start);
  }

  lemma NothingRanYet(rows: map<TaskId, RunTask>, outcomes: TaskId -> RunnerResult, run: RunId)
    requires PlannedRows(rows, run)
    ensures RowsAfter(rows, outcomes, {}) == rows
    ensures forall ran, id :: id in rows ==> RowsAfter(rows, outcomes, ran)[id].runId == run
  {
  }

  // --- dependency safety through renaming -----------------------------------------------------------

  /** A stored task keeps everything but its state for good. */
  lemma {:induction false} RowStays(history: seq<Tables>, start: nat, j: nat, k: nat, id: TaskId)
    requires start <= j <= k < |history| && Explained(history, start) && id in history[j].tasks
    ensures id in history[k].tasks
    ensures history[k].tasks[id] == history[j].tasks[id].(state := history[k].tasks[id].state)
    decreases k
  {
    if j < k {
      RowStays(history, start, j, k - 1, id);
      assert ExplainedAt(history, k);
      StepKeepsRow(history[k - 1], history[k], id);
    }
  }

  lemma StepKeepsRow(before: Tables, after: Tables, id: TaskId)
    requires Explains(before, after) && id in before.tasks
    ensures id in after.tasks && after.tasks[id] == before.tasks[id].(state := after.tasks[id].state)
  {
  }

  /** No node of the plan has begun before every node it depends on succeeded. */
  ghost predicate PlanSafe(tables: Tables, tasks: seq<PlanTask>, ids: seq<TaskId>, rewritten: map<TaskId, TaskId>) {
    && |ids| == |tasks|
    && forall i {:trigger ids[i]} :: 0 <= i < |tasks| && ids[i] in tables.tasks && Began(tables.tasks[ids[i]].state) ==>
      NodeReleased(tables, tasks[i], rewritten)
  }

  ghost predicate NodeReleased(tables: Tables, task: PlanTask, rewritten: map<TaskId, TaskId>) {
    forall k :: 0 <= k < |task.dependencies| ==>
      && task.dependencies[k] in rewritten
      && rewritten[task.dependencies[k]] in tables.tasks
      && tables.tasks[rewritten[task.dependencies[k]]].state == TaskState.Succeeded
  }

  /** At every crash point, what is stored of the plan is as the plan says, and none of it began too early. */
  ghost predicate SafeSince(history: seq<Tables>, start: nat, run: RunId, tasks: seq<PlanTask>, ids: seq<TaskId>,
                            rewritten: map<TaskId, TaskId>) {
    forall k {:trigger PlanSafe(history[k], tasks, ids, rewritten)} :: start <= k < |history| ==>
      PlanSafe(history[k], tasks, ids, rewritten) && RowsMatch(history[k].tasks, tasks, ids, run, rewritten)
  }

  lemma NodeIsReleased(history: seq<Tables>, start: nat, run: RunId, k: nat, task: PlanTask, id: TaskId,
                       rewritten: map<TaskId, TaskId>)
    requires Trace(history, start, run) && start <= k < |history|
    requires id in history[k].tasks && Began(history[k].tasks[id].state)
    requires id in history[|history| - 1].tasks ==> MatchesNode(history[|history| - 1].tasks[id], task, run, rewritten)
    ensures NodeReleased(history[k], task, rewritten)
  {
    RowStays(history, start, k, |history| - 1, id);
    var row := history[k].tasks[id];
    assert MatchesNode(row, task, run, rewritten);
    assert Safe(history[k], run) && row.runId == run;
    assert DependenciesSucceeded(row, history[k]);
    forall i | 0 <= i < |task.dependencies|
      ensures task.dependencies[i] in rewritten && rewritten[task.dependencies[i]] in history[k].tasks
      ensures history[k].tasks[rewritten[task.dependencies[i]]].state == TaskState.Succeeded
    {
      assert row.dependencies[i] in row.dependencies;
    }
  }

  lemma MatchedBefore(history: seq<Tables>, start: nat, k: nat, run: RunId, tasks: seq<PlanTask>, ids: seq<TaskId>,
                      rewritten: map<TaskId, TaskId>)
    requires start <= k < |history| && Explained(history, start)
    requires RowsMatch(history[|history| - 1].tasks, tasks, ids, run, rewritten)
    ensures RowsMatch(history[k].tasks, tasks, ids, run, rewritten)
  {
    forall i | 0 <= i < |tasks| && ids[i] in history[k].tasks
      ensures MatchesNode(history[k].tasks[ids[i]], tasks[i], run, rewritten)
    {
      RowStays(history, start, k, |history| - 1, ids[i]);
      assert MatchesNode(history[|history| - 1].tasks[ids[i]], tasks[i], run, rewritten);
    }
  }

  /** What the rows promise of their dependencies, the plan promises of its own, at every crash point. */
  lemma PlanIsSafe(history: seq<Tables>, start: nat, run: RunId, tasks: seq<PlanTask>, ids: seq<TaskId>,
                   rewritten: map<TaskId, TaskId>)
    requires Trace(history, start, run)
    requires RowsMatch(history[|history| - 1].tasks, tasks, ids, run, rewritten)
    ensures SafeSince(history, start, run, tasks, ids, rewritten)
  {
    forall k | start <= k < |history|
      ensures PlanSafe(history[k], tasks, ids, rewritten) && RowsMatch(history[k].tasks, tasks, ids, run, rewritten)
    {
      MatchedBefore(history, start, k, run, tasks, ids, rewritten);
      forall i | 0 <= i < |tasks| && ids[i] in history[k].tasks && Began(history[k].tasks[ids[i]].state)
        ensures NodeReleased(history[k], tasks[i], rewritten)
      {
        NodeIsReleased(history, start, run, k, tasks[i], ids[i], rewritten);
      }
    }
  }

  /** Once all nodes are stored, they go on matching the plan. */
  lemma MatchStays(history: seq<Tables>, start: nat, j: nat, run: RunId, tasks: seq<PlanTask>, ids: seq<TaskId>,
                   rewritten: map<TaskId, TaskId>)
    requires start <= j < |history| && Explained(history, start)
    requires RowsMatch(history[j].tasks, tasks, ids, run, rewritten)
    requires forall i :: 0 <= i < |ids| ==> ids[i] in history[j].tasks
    ensures RowsMatch(history[|history| - 1].tasks, tasks, ids, run, rewritten)
  {
    forall i | 0 <= i < |tasks| && ids[i] in history[|history| - 1].tasks
      ensures MatchesNode(history[|history| - 1].tasks[ids[i]], tasks[i], run, rewritten)
    {
      RowStays(history, start, j, |history| - 1, ids[i]);
      assert MatchesNode(history[j].tasks[ids[i]], tasks[i], run, rewritten);
    }
  }

  lemma SafeOnceStored(history: seq<Tables>, start: nat, j: nat, run: RunId, tasks: seq<PlanTask>, ids: seq<TaskId>,
                       rewritten: map<TaskId, TaskId>)
    requires Trace(history, start, run) && start <= j < |history|
    requires RowsMatch(history[j].tasks, tasks, ids, run, rewritten)
    requires forall i :: 0 <= i < |ids| ==> ids[i] in history[j].tasks
    ensures SafeSince(history, start, run, tasks, ids, rewritten)
  {
    MatchStays(history, start, j, run, tasks, ids, rewritten);
    PlanIsSafe(history, start, run, tasks, ids, rewritten);
  }

  // --- ExecuteAsync ---------------------------------------------------------------------------------------

  /** The run is over as the specification says, and nothing else has changed. */
  ghost predicate Executed(before: Tables, after: Tables, run: Run, tasks: seq<PlanTask>, ids: seq<TaskId>,
                           outcomes: TaskId -> RunnerResult)
    requires UniqueIds(tasks) && |ids| == |tasks|
  {
    && EndsAs(after.tasks, tasks, ids, PlanStates(tasks, ids, outcomes))
    && (forall id :: id in before.tasks ==> id in after.tasks && after.tasks[id] == before.tasks[id])
    && (forall id :: id in after.tasks ==> id in before.tasks || id in ids)
    && after.runs ==
       before.runs[run.id := Judged(run.(state := RunState.Running), PlanStates(tasks, ids, outcomes).Values)]
  }

  /** What the loop leaves when it runs to exhaustion, told by rows. */
  ghost predicate Driven(before: Tables, after: Tables, run: Run, rows: map<TaskId, RunTask>,
                         outcomes: TaskId -> RunnerResult) {
    var ended := RowsAfter(rows, outcomes, RanBy(rows, outcomes, |rows|));
    && after.tasks == before.tasks + ended
    && after.runs == before.runs[run.id := Judged(run, set id | id in ended :: ended[id].state)]
  }

  lemma ExecutedAsPlanned(before: Tables, after: Tables, run: Run, tasks: seq<PlanTask>, ids: seq<TaskId>, now: Moment,
                          rows: seq<RunTask>, outcomes: TaskId -> RunnerResult)
    requires Startable(before, run, tasks, ids)
    requires UniqueIds(tasks) && Materialized(tasks, ids, run.id, now, rows) && DistinctIds(rows)
    requires Driven(before, after, run.(state := RunState.Running), ById(rows), outcomes)
    ensures Executed(before, after, run, tasks, ids, outcomes)
  {
    var ended := RowsAfter(ById(rows), outcomes, RanBy(ById(rows), outcomes, |ById(rows)|));
    PlanSettles(tasks, ids, run.id, now, rows, outcomes, ended);
    OwnIds(tasks, ids, run.id, now, rows, outcomes, RanBy(ById(rows), outcomes, |ById(rows)|));
    AddedRows(before.tasks, ended, after.tasks, tasks, ids, PlanStates(tasks, ids, outcomes));
  }

  lemma OwnIds(tasks: seq<PlanTask>, ids: seq<TaskId>, run: RunId, now: Moment, rows: seq<RunTask>,
               outcomes: TaskId -> RunnerResult, ran: set<TaskId>)
    requires UniqueIds(tasks) && |ids| == |tasks| && Materialized(tasks, ids, run, now, rows) && DistinctIds(rows)
    ensures forall id :: id in RowsAfter(ById(rows), outcomes, ran) ==> id in ids
  {
    RowsAt(tasks, ids, run, now, Rewriting(tasks, ids), rows);
    forall id | id in RowsAfter(ById(rows), outcomes, ran) ensures id in ids {
      var i :| 0 <= i < |rows| && rows[i].id == id;
      assert RowAt(tasks[i], ids[i], run, Rewriting(tasks, ids), rows[i]) && ids[i] == id;
    }
  }

  lemma AddedRows(before: map<TaskId, RunTask>, ended: map<TaskId, RunTask>, after: map<TaskId, RunTask>,
                  tasks: seq<PlanTask>, ids: seq<TaskId>, states: map<TaskId, TaskState>)
    requires after == before + ended && |ids| == |tasks| && EndsAs(ended, tasks, ids, states)
    requires (forall id :: id in ended ==> id in ids) && forall i :: 0 <= i < |ids| ==> ids[i] !in before
    ensures EndsAs(after, tasks, ids, states)
    ensures forall id :: id in before ==> id in after && after[id] == before[id]
    ensures forall id :: id in after ==> id in before || id in ids
  {
  }

  /** No task of the run may be cancelled any more, but for those that failed. */
  ghost predicate NothingOpen(tables: Tables, run: RunId) {
    forall id :: id in tables.tasks && tables.tasks[id].runId == run ==>
      tables.tasks[id].state in {TaskState.Succeeded, TaskState.Failed, TaskState.Cancelled, TaskState.Superseded}
  }

  lemma ClosingLeavesNothingOpen(tasks: map<TaskId, RunTask>, tables: Tables, run: RunId)
    requires tables.tasks == ClosedTasks(tasks, run)
    ensures NothingOpen(tables, run)
  {
  }

  lemma PreparedRows(before: Tables, tables: Tables, run: RunId, tasks: seq<PlanTask>, ids: seq<TaskId>, now: Moment,
                     rows: seq<RunTask>)
    requires UniqueIds(tasks) && FreshIds(ids, |tasks|) && Materialized(tasks, ids, run, now, rows) && DistinctIds(rows)
    requires tables.tasks == before.tasks + ById(rows)
    ensures PlannedRows(ById(rows), run) && forall i :: 0 <= i < |ids| ==> ids[i] in tables.tasks
  {
    RewritingPairs(tasks, ids);
    RowsAt(tasks, ids, run, now, Rewriting(tasks, ids), rows);
    RowsArePlanned(tasks, ids, run, Rewriting(tasks, ids), rows);
    forall i | 0 <= i < |ids| ensures ids[i] in tables.tasks {
      assert rows[i].id == ids[i];
    }
  }

  /** Runs the loop on the prepared rows, and says in the plan's terms what came of it. */
  method Carry(repo: RunRepository, runner: TaskRunner, run: Run, token: CancellationToken, ghost start: nat,
               ghost before: Tables,
               ghost created: Run, ghost tasks: seq<PlanTask>, ghost ids: seq<TaskId>, ghost now: Moment,
               ghost rows: seq<RunTask>)
    returns (r: Result<Run, RunError>, ghost batches: seq<set<TaskId>>, ghost stopped: bool)
    requires repo.Valid() && KeyedById(repo.tables) && Trace(repo.history, start, run.id)
    requires Startable(before, created, tasks, ids) && run == created.(state := RunState.Running)
    requires UniqueIds(tasks) && Materialized(tasks, ids, run.id, now, rows) && DistinctIds(rows)
    requires RowsMatch(repo.tables.tasks, tasks, ids, run.id, Rewriting(tasks, ids))
    requires repo.tables.tasks == before.tasks + ById(rows) && repo.tables.runs == before.runs[run.id := run]
    modifies repo, runner, token
    ensures repo.Valid() && old(repo.history) <= repo.history && Trace(repo.history, start, run.id)
    ensures SafeSince(repo.history, start, run.id, tasks, ids, Rewriting(tasks, ids))
    ensures AtMostOnce(runner.calls, |old(runner.calls)|)
    ensures r.Ok? ==> run.id in repo.tables.runs && r.value == repo.tables.runs[run.id]
    ensures r.Ok? ==> Told(repo.history, start, run.id, r.value.state)
    ensures RunsLevels(batches, ById(rows), runner.outcomes, r.Ok? && !stopped)
    ensures (r.Ok? && !stopped) || (r.Err? && repo.tables.runs != old(repo.tables.runs)) ==>
      Executed(before, repo.tables, created, tasks, ids, runner.outcomes)
    ensures r.Ok? && stopped ==> r.value.state == RunState.Cancelled && NothingOpen(repo.tables, run.id)
    ensures old(token.Never()) ==> r.Ok? && !stopped
  {
    ghost var j, prepared := |repo.history| - 1, repo.tables;
    PreparedRows(before, repo.tables, run.id, tasks, ids, now, rows);
    r, batches, stopped := Drive(repo, runner, run, token, start, before.tasks, ById(rows));
    assert repo.history[j] == prepared;
    SafeOnceStored(repo.history, start, j, run.id, tasks, ids, Rewriting(tasks, ids));
    if r.Ok? && stopped {
      ghost var ran := RanBy(ById(rows), runner.outcomes, |batches|);
      ClosingLeavesNothingOpen(before.tasks + RowsAfter(ById(rows), runner.outcomes, ran), repo.tables, run.id);
    } else if r.Ok? || repo.tables.runs != prepared.runs {
      Overwrite(before.runs, run.id, run, repo.tables.runs[run.id]);
      assert Driven(before, repo.tables, run, ById(rows), runner.outcomes);
      ExecutedAsPlanned(before, repo.tables, created, tasks, ids, now, rows, runner.outcomes);
    }
  }

  /** The states an exception can leave a run in: where it was, and where the engine takes it before any verdict. */
  ghost function Unfinished(run: Run): set<RunState> {
    {run.state, RunState.Planning, RunState.Ready, RunState.Running}
  }

  /**
   Executes a plan. Unless the token fires, the run ends as the specification says; a stop that is
   seen between two rounds ends it Cancelled with nothing open, and one that interrupts a step leaves
   it unfinished, or ended as specified when only the last reading was lost.
   */
  method Execute(repo: RunRepository, runner: TaskRunner, created: Run, plan: Plan, ids: seq<TaskId>, now: Moment,
                 token: CancellationToken)
    returns (r: Result<Run, RunError>, ghost batches: seq<set<TaskId>>, ghost rows: seq<RunTask>, ghost stopped: bool)
    requires repo.Valid() && KeyedById(repo.tables) && Startable(repo.tables, created, plan.tasks, ids)
    modifies repo, runner, token
    ensures repo.Valid() && old(repo.history) <= repo.history
    ensures Trace(repo.history, |old(repo.history)| - 1, created.id)
    ensures UniqueIds(plan.tasks) ==>
      SafeSince(repo.history, |old(repo.history)| - 1, created.id, plan.tasks, ids, Rewriting(plan.tasks, ids))
    ensures AtMostOnce(runner.calls, |old(runner.calls)|)
    ensures r.Ok? ==> Plannable(plan.tasks) && created.id in repo.tables.runs && r.value == repo.tables.runs[created.id]
    ensures r.Ok? ==> Told(repo.history, |old(repo.history)| - 1, created.id, r.value.state)
    ensures r.Ok? ==> Materialized(plan.tasks, ids, created.id, now, rows) && DistinctIds(rows)
    ensures r.Ok? ==> RunsLevels(batches, ById(rows), runner.outcomes, !stopped)
    ensures r.Ok? && !stopped ==> Executed(old(repo.tables), repo.tables, created, plan.tasks, ids, runner.outcomes)
    ensures r.Ok? && stopped ==> r.value.state == RunState.Cancelled && NothingOpen(repo.tables, created.id)
    ensures r.Err? ==>
      || LeftIn(old(repo.tables.runs), repo.tables.runs, created, Unfinished(created))
      || (UniqueIds(plan.tasks) && Executed(old(repo.tables), repo.tables, created, plan.tasks, ids, runner.outcomes))
    ensures old(token.Never()) && created.state == RunState.Created ==>
      if Plannable(plan.tasks) then r.Ok? && !stopped
      else r == Err(if UniqueIds(plan.tasks) then KeyNotFound else DuplicateKey) &&
           repo.tables.runs == old(repo.tables.runs)[created.id := created.(state := RunState.Planning)]
  {
    ghost var before, start := repo.tables, |repo.history| - 1;
    batches, stopped := [], false;
    var run;
    run, rows := Prepare(repo, created, plan.tasks, ids, now, token, start);
    if run.Ok? {
      r, batches, stopped := Carry(repo, runner, run.value, token, start, before, created, plan.tasks, ids, now, rows);
    } else {
      if UniqueIds(plan.tasks) {
        PlanIsSafe(repo.history, start, created.id, plan.tasks, ids, Rewriting(plan.tasks, ids));
      }
      r := Err(run.error);
    }
  }

  // --- the verdict on a plan ---------------------------------------------------------------------------------

  lemma GraphReachesVerdict(g: Graph, rewritten: map<TaskId, TaskId>, outcomes: TaskId -> RunnerResult)
    requires Closed(g) && Acyclic(g) && g != map[]
    ensures var states := Settled(g, PlanResult(rewritten, outcomes)); Verdict(states.Values) == Some(VerdictIn(states))
  {
    var result := PlanResult(rewritten, outcomes);
    SettledSolves(g, result);
    assert Ends(g, result);
    VerdictOf(g, result, Settled(g, result));
  }

  lemma GraphGetsStuck(g: Graph, rewritten: map<TaskId, TaskId>) returns (outcomes: TaskId -> RunnerResult)
    requires Closed(g) && (g == map[] || !Acyclic(g)) && g.Keys == rewritten.Keys
    ensures Verdict(Settled(g, PlanResult(rewritten, outcomes)).Values).None?
  {
    outcomes := t => Success("");
    var result := PlanResult(rewritten, outcomes);
    forall t | t in g ensures result(t) == TaskState.Succeeded {
      assert t in g.Keys && t in rewritten.Keys;
      assert outcomes(rewritten[t]) == Success("");
    }
    StuckWithoutFailing(g, result);
  }

  lemma GraphOfSome(tasks: seq<PlanTask>, ids: seq<TaskId>)
    requires UniqueIds(tasks) && |ids| == |tasks|
    ensures tasks == [] <==> TaskGraph.GraphOf(tasks) == map[]
    ensures TaskGraph.GraphOf(tasks).Keys == Rewriting(tasks, ids).Keys
  {
    if tasks != [] {
      assert tasks[0].id in TaskGraph.GraphOf(tasks);
    }
  }

  /**
   A non-empty valid plan never gets stuck: the run goes to Failed if some task failed, to Verifying
   if all succeeded, and to Cancelled otherwise.
   */
  lemma PlanReachesVerdict(tasks: seq<PlanTask>, ids: seq<TaskId>, outcomes: TaskId -> RunnerResult, run: Run)
    requires UniqueIds(tasks) && |ids| == |tasks| && tasks != []
    requires Closed(TaskGraph.GraphOf(tasks)) && Acyclic(TaskGraph.GraphOf(tasks))
    ensures var states := PlanStates(tasks, ids, outcomes); Judged(run, states.Values).state == VerdictIn(states)
    ensures Judged(run, PlanStates(tasks, ids, outcomes).Values).state == RunState.Verifying <==>
            forall i :: 0 <= i < |ids| ==> outcomes(ids[i]).Success?
  {
    GraphOfSome(tasks, ids);
    GraphReachesVerdict(TaskGraph.GraphOf(tasks), Rewriting(tasks, ids), outcomes);
    VerifyingIff(tasks, ids, outcomes);
  }

  /** Every task the node waits for has ended as succeeded. */
  ghost predicate WaitIsOver(task: PlanTask, states: map<TaskId, TaskState>) {
    forall d :: d in task.dependencies ==> d in states && states[d] == TaskState.Succeeded
  }

  /** What becomes of each node of a valid plan, by what the runner does with its task. */
  lemma NodeEndsAs(tasks: seq<PlanTask>, ids: seq<TaskId>, outcomes: TaskId -> RunnerResult, i: nat)
    requires UniqueIds(tasks) && |ids| == |tasks| && i < |tasks|
    requires Closed(TaskGraph.GraphOf(tasks)) && Acyclic(TaskGraph.GraphOf(tasks))
    ensures var states, id, outcome := PlanStates(tasks, ids, outcomes), tasks[i].id, outcomes(ids[i]);
      && id in states
      && (states[id] == TaskState.Planned <==> !WaitIsOver(tasks[i], states))
      && (states[id] == TaskState.Succeeded <==> WaitIsOver(tasks[i], states) && outcome.Success?)
      && (states[id] == TaskState.Cancelled <==> WaitIsOver(tasks[i], states) && outcome.ThrowsCancelled?)
      && (states[id] == TaskState.Failed <==>
          WaitIsOver(tasks[i], states) && (outcome.Failure? || outcome.Throws?))
  {
    var g, f := TaskGraph.GraphOf(tasks), Rewriting(tasks, ids);
    SettledSolves(g, PlanResult(f, outcomes));
    assert tasks[i].id in g && f[tasks[i].id] == ids[i];
    EndsByOutcome(g, f, outcomes, PlanStates(tasks, ids, outcomes), tasks[i]);
  }

  lemma EndsByOutcome(g: Graph, f: map<TaskId, TaskId>, outcomes: TaskId -> RunnerResult,
                      states: map<TaskId, TaskState>, task: PlanTask)
    requires task.id in g && g[task.id] == task.dependencies && task.id in f
    requires Solves(g, PlanResult(f, outcomes), states)
    ensures var outcome := outcomes(f[task.id]);
      && task.id in states
      && (states[task.id] == TaskState.Planned <==> !WaitIsOver(task, states))
      && (states[task.id] == TaskState.Succeeded <==> WaitIsOver(task, states) && outcome.Success?)
      && (states[task.id] == TaskState.Cancelled <==> WaitIsOver(task, states) && outcome.ThrowsCancelled?)
      && (states[task.id] == TaskState.Failed <==>
          WaitIsOver(task, states) && (outcome.Failure? || outcome.Throws?))
  {
    assert SolvesAt(g, PlanResult(f, outcomes), states, task.id);
    assert AllSucceeded(g[task.id], states) <==> WaitIsOver(task, states);
  }

  /** The states of a valid plan's tasks come to Verifying exactly if the runner succeeds with every task. */
  lemma VerifyingIff(tasks: seq<PlanTask>, ids: seq<TaskId>, outcomes: TaskId -> RunnerResult)
    requires UniqueIds(tasks) && |ids| == |tasks|
    requires Closed(TaskGraph.GraphOf(tasks)) && Acyclic(TaskGraph.GraphOf(tasks))
    ensures VerdictIn(PlanStates(tasks, ids, outcomes)) == RunState.Verifying <==>
            forall i :: 0 <= i < |ids| ==> outcomes(ids[i]).Success?
  {
    if VerdictIn(PlanStates(tasks, ids, outcomes)) == RunState.Verifying {
      forall i | 0 <= i < |ids| ensures outcomes(ids[i]).Success? {
        VerifyingMeansSuccess(tasks, ids, outcomes, i);
      }
    }
    if forall i :: 0 <= i < |ids| ==> outcomes(ids[i]).Success? {
      SuccessMeansVerifying(tasks, ids, outcomes);
    }
  }

  lemma VerifyingMeansSuccess(tasks: seq<PlanTask>, ids: seq<TaskId>, outcomes: TaskId -> RunnerResult, i: nat)
    requires UniqueIds(tasks) && |ids| == |tasks| && i < |ids|
    requires Closed(TaskGraph.GraphOf(tasks)) && Acyclic(TaskGraph.GraphOf(tasks))
    requires VerdictIn(PlanStates(tasks, ids, outcomes)) == RunState.Verifying
    ensures outcomes(ids[i]).Success?
  {
    NodeEndsAs(tasks, ids, outcomes, i);
    VerifyingIsAll(PlanStates(tasks, ids, outcomes), tasks[i].id);
  }

  lemma SuccessMeansVerifying(tasks: seq<PlanTask>, ids: seq<TaskId>, outcomes: TaskId -> RunnerResult)
    requires UniqueIds(tasks) && |ids| == |tasks|
    requires Closed(TaskGraph.GraphOf(tasks)) && Acyclic(TaskGraph.GraphOf(tasks))
    requires forall i :: 0 <= i < |ids| ==> outcomes(ids[i]).Success?
    ensures VerdictIn(PlanStates(tasks, ids, outcomes)) == RunState.Verifying
  {
    AllRelease(tasks, ids, outcomes);
    AllSucceed(TaskGraph.GraphOf(tasks), PlanResult(Rewriting(tasks, ids), outcomes));
  }

  lemma AllSucceed(g: Graph, result: TaskId -> TaskState)
    requires Closed(g) && Acyclic(g)
    requires Unreleasing(g, result) == {} && forall t :: t in g ==> result(t) == TaskState.Succeeded
    ensures VerdictIn(Settled(g, result)) == RunState.Verifying
  {
    FinishIffAcyclic(g);
    assert forall t :: t in g ==> Settled(g, result)[t] == TaskState.Succeeded;
  }

  lemma AllRelease(tasks: seq<PlanTask>, ids: seq<TaskId>, outcomes: TaskId -> RunnerResult)
    requires UniqueIds(tasks) && |ids| == |tasks|
    requires forall i :: 0 <= i < |ids| ==> outcomes(ids[i]).Success?
    ensures var g, result := TaskGraph.GraphOf(tasks), PlanResult(Rewriting(tasks, ids), outcomes);
      Unreleasing(g, result) == {} && forall t :: t in g ==> result(t) == TaskState.Succeeded
  {
    RewritingPairs(tasks, ids);
    var f := Rewriting(tasks, ids);
    forall t | t in TaskGraph.GraphOf(tasks) ensures StateAfter(outcomes(f[t])) == TaskState.Succeeded {
      assert PairOf(tasks, ids, f, t);
    }
  }

  /** And only such a plan is safe from it: an empty or cyclic one can leave its run in Running. */
  lemma PlanLeavesRunningIff(tasks: seq<PlanTask>, ids: seq<TaskId>)
    requires UniqueIds(tasks) && |ids| == |tasks| && Closed(TaskGraph.GraphOf(tasks))
    ensures (forall outcomes :: Verdict(PlanStates(tasks, ids, outcomes).Values).Some?)
            <==> tasks != [] && Acyclic(TaskGraph.GraphOf(tasks))
  {
    GraphOfSome(tasks, ids);
    if tasks != [] && Acyclic(TaskGraph.GraphOf(tasks)) {
      forall outcomes ensures Verdict(PlanStates(tasks, ids, outcomes).Values).Some? {
        GraphReachesVerdict(TaskGraph.GraphOf(tasks), Rewriting(tasks, ids), outcomes);
      }
    } else {
      var outcomes := GraphGetsStuck(TaskGraph.GraphOf(tasks), Rewriting(tasks, ids));
      assert Verdict(PlanStates(tasks, ids, outcomes).Values).None?;
    }
  }
}
