/**
 The transitions of runs and tasks (Scheduler.cs). Each of them keeps the trace explained by its
 events, and releases no task before its dependencies have succeeded. The owner of a run passes its
 own copy of a row; that the copy equals the row is a precondition here and kept by the engine.
 */
module Scheduler {
  import opened Wrappers
  import opened Domain
  import opened StateMachine
  import opened RunStore

  function RunEvent(run: Run, kind: EventType, to: RunState, reason: string): DomainEvent {
    DomainEvent(run.id, kind, RunMove(run.state, to), reason)
  }

  function TaskEvent(task: RunTask, kind: EventType, reason: string): DomainEvent {
    DomainEvent(task.runId, kind, TaskMove(task.id, task.state), reason)
  }

  // --- dependency safety ------------------------------------------------------------------

  /** A task in one of these states has been released by its dependencies. */
  predicate Began(state: TaskState) {
    state == TaskState.Ready || state == TaskState.Running || state == TaskState.Succeeded || state == TaskState.Failed
  }

  ghost predicate DependenciesSucceeded(task: RunTask, tables: Tables) {
    forall d :: d in task.dependencies ==> d in tables.tasks && tables.tasks[d].state == TaskState.Succeeded
  }

  ghost predicate Safe(tables: Tables, run: RunId) {
    forall id :: id in tables.tasks && tables.tasks[id].runId == run && Began(tables.tasks[id].state) ==>
      DependenciesSucceeded(tables.tasks[id], tables)
  }

  /** Since start, every change was explained by its event, and no task began before its turn. */
  ghost predicate Trace(history: seq<Tables>, start: nat, run: RunId) {
    && start < |history|
    && Explained(history, start)
    && forall i :: start <= i < |history| ==> Safe(history[i], run)
  }

  lemma TraceStep(history: seq<Tables>, start: nat, run: RunId, step: Step)
    requires Trace(history, start, run) && Legal(history[|history| - 1], step)
    requires Safe(Apply(history[|history| - 1], step), run)
    ensures Trace(history + [Apply(history[|history| - 1], step)], start, run)
  {
    ExplainedStep(history, start, step);
  }

  lemma TraceOfTask(history: seq<Tables>, start: nat, run: RunId, task: RunTask, to: TaskState, event: DomainEvent)
    requires Trace(history, start, run)
    requires var t := history[|history| - 1];
             Stored(task, t) && task.state != TaskState.Succeeded &&
             Legal(t, MoveTask(task.id, to, event)) &&
             (Began(to) ==> DependenciesSucceeded(task, t))
    ensures var t := history[|history| - 1];
            var after := t.(tasks := t.tasks[task.id := task.(state := to)], events := t.events + [event]);
            Trace(history + [after], start, run)
  {
    TraceStep(history, start, run, MoveTask(task.id, to, event));
  }

  lemma TraceOfRun(history: seq<Tables>, start: nat, run: RunId, moved: Run, to: RunState, event: DomainEvent)
    requires Trace(history, start, run)
    requires var t := history[|history| - 1];
             moved.id in t.runs && t.runs[moved.id] == moved && Legal(t, MoveRun(moved.id, to, event))
    ensures var t := history[|history| - 1];
            var after := t.(runs := t.runs[moved.id := moved.(state := to)], events := t.events + [event]);
            Trace(history + [after], start, run)
  {
    TraceStep(history, start, run, MoveRun(moved.id, to, event));
  }

  // --- ready tasks ---------------------------------------------------------------------------

  ghost predicate DistinctIds(tasks: seq<RunTask>) {
    forall i, j :: 0 <= i < j < |tasks| ==> tasks[i].id != tasks[j].id
  }

  function ById(tasks: seq<RunTask>): (byId: map<TaskId, RunTask>)
    requires DistinctIds(tasks)
  {
    map i | 0 <= i < |tasks| :: tasks[i].id := tasks[i]
  }

  predicate DependenciesMet(task: RunTask, byId: map<TaskId, RunTask>) {
    forall d :: d in task.dependencies ==> d in byId && byId[d].state == TaskState.Succeeded
  }

  function ReadyAmong(tasks: seq<RunTask>, byId: map<TaskId, RunTask>): seq<RunTask> {
    if tasks == [] then []
    else if tasks[0].state == TaskState.Planned && DependenciesMet(tasks[0], byId) then
      [tasks[0]] + ReadyAmong(tasks[1..], byId)
    else ReadyAmong(tasks[1..], byId)
  }

  /** The planned tasks nothing holds back any more, in list order. */
  function ReadyTasks(tasks: seq<RunTask>): seq<RunTask>
    requires DistinctIds(tasks)
  {
    ReadyAmong(tasks, ById(tasks))
  }

  lemma {:induction false} ReadyAmongMembers(tasks: seq<RunTask>, byId: map<TaskId, RunTask>, t: RunTask)
    ensures t in ReadyAmong(tasks, byId) <==> t in tasks && t.state == TaskState.Planned && DependenciesMet(t, byId)
  {
    if tasks != [] {
      ReadyAmongMembers(tasks[1..], byId, t);
    }
  }

  lemma {:induction false} ReadyAmongDistinct(tasks: seq<RunTask>, byId: map<TaskId, RunTask>)
    requires DistinctIds(tasks)
    ensures DistinctIds(ReadyAmong(tasks, byId))
  {
    if tasks != [] {
      var rest := ReadyAmong(tasks[1..], byId);
      ReadyAmongDistinct(tasks[1..], byId);
      forall j | 0 <= j < |rest| ensures rest[j].id != tasks[0].id {
        ReadyAmongMembers(tasks[1..], byId, rest[j]);
      }
    }
  }

  // --- runs ------------------------------------------------------------------------------------

  method Start(repo: RunRepository, run: Run, token: CancellationToken, ghost start: nat)
    returns (r: Result<Run, RunError>)
    requires repo.Valid() && KeyedById(repo.tables) && Trace(repo.history, start, run.id)
    requires run.id in repo.tables.runs && repo.tables.runs[run.id] == run
    modifies repo, token
    ensures repo.Valid() && KeyedById(repo.tables) && (token.Never() <==> old(token.Never()))
    ensures Trace(repo.history, start, run.id) && old(repo.history) <= repo.history
    ensures r.Ok? ==> r.value == run.(state := RunState.Planning)
    ensures r.Ok? ==> repo.tables.runs == old(repo.tables.runs)[run.id := r.value]
    ensures r.Err? ==> repo.tables.runs == old(repo.tables.runs)
    ensures repo.tables.tasks == old(repo.tables.tasks)
    ensures old(token.Never()) && CanMoveRun(run.state, RunState.Planning) ==> r.Ok?
  {
    r := MoveRunTo(repo, run, EventType.RunStarted, RunState.Planning, "", token, start);
  }

  function AdvanceKind(to: RunState): EventType {
    match to
    case Completed => EventType.RunCompleted
    case Failed => EventType.RunFailed
    case _ => EventType.StateChange
  }

  /** The rows and the log after one task transition. */
  ghost predicate MovedTask(before: Tables, task: RunTask, kind: EventType, to: TaskState, reason: string,
                            after: Tables) {
    after == before.(tasks := before.tasks[task.id := task.(state := to)],
                     events := before.events + [TaskEvent(task, kind, reason)])
  }

  method Advance(repo: RunRepository, run: Run, to: RunState, token: CancellationToken, ghost start: nat)
    returns (r: Result<Run, RunError>)
    requires repo.Valid() && KeyedById(repo.tables) && Trace(repo.history, start, run.id)
    requires run.id in repo.tables.runs && repo.tables.runs[run.id] == run
    modifies repo, token
    ensures repo.Valid() && KeyedById(repo.tables) && (token.Never() <==> old(token.Never()))
    ensures Trace(repo.history, start, run.id) && old(repo.history) <= repo.history
    ensures r.Ok? ==> CanMoveRun(run.state, to) && r.value == run.(state := to)
    ensures r.Ok? ==> repo.tables.runs == old(repo.tables.runs)[run.id := r.value]
    ensures r.Ok? ==> |repo.history| > |old(repo.history)| && JustMoved(repo.history, run.id, run.state, to)
    ensures r.Err? ==> repo.tables.runs == old(repo.tables.runs)
    ensures repo.tables.tasks == old(repo.tables.tasks)
    ensures old(token.Never()) && CanMoveRun(run.state, to) ==> r.Ok?
  {
    r := MoveRunTo(repo, run, AdvanceKind(to), to, "", token, start);
  }

  // --- tasks -----------------------------------------------------------------------------------

  /** A cancelled task is logged as a failed one; only its row tells them apart. */
  function TaskKind(to: TaskState): EventType {
    match to
    case Ready => EventType.TaskReady
    case Succeeded => EventType.TaskSucceeded
    case Failed => EventType.TaskFailed
    case Cancelled => EventType.TaskFailed
    case _ => EventType.StateChange
  }

  method MoveTo(repo: RunRepository, task: RunTask, to: TaskState, reason: string, token: CancellationToken)
    returns (r: Result<RunTask, RunError>)
    requires repo.Valid()
    modifies repo, token
    ensures repo.Valid() && (token.Never() <==> old(token.Never()))
    ensures r.Ok? ==> CanMoveTask(task.state, to)
    ensures r.Ok? ==> MovedTask(old(repo.tables), task, TaskKind(to), to, reason, repo.tables)
    ensures r.Ok? ==> r.value == task.(state := to) && repo.history == old(repo.history) + [repo.tables]
    ensures r.Err? ==> repo.tables == old(repo.tables) && repo.history == old(repo.history)
    ensures old(token.Never()) && CanMoveTask(task.state, to) ==> r.Ok?
  {
    r := repo.TransitionTask(task, to, TaskEvent(task, TaskKind(to), reason), token);
  }

  /**
   A move of the single owner of a run: its copy equals the row, so the guard on the copy guards
   the row, and the trace stays explained and safe.
   */
  method Move(repo: RunRepository, task: RunTask, to: TaskState, reason: string, token: CancellationToken,
              ghost start: nat, ghost run: RunId)
    returns (r: Result<RunTask, RunError>)
    requires repo.Valid() && KeyedById(repo.tables) && Trace(repo.history, start, run)
    requires Stored(task, repo.tables) && task.state != TaskState.Succeeded
    requires Began(to) ==> DependenciesSucceeded(task, repo.tables)
    requires to != TaskState.Planned && to != TaskState.Blocked && to != TaskState.Superseded
    modifies repo, token
    ensures repo.Valid() && KeyedById(repo.tables) && (token.Never() <==> old(token.Never()))
    ensures Trace(repo.history, start, run) && old(repo.history) <= repo.history
    ensures r.Ok? ==> r.value == task.(state := to) && repo.tables.tasks == old(repo.tables.tasks)[task.id := r.value]
    ensures r.Err? ==> repo.tables.tasks == old(repo.tables.tasks)
    ensures repo.tables.runs == old(repo.tables.runs)
    ensures old(token.Never()) && CanMoveTask(task.state, to) ==> r.Ok?
  {
    ghost var history := repo.history;
    r := MoveTo(repo, task, to, reason, token);
    if r.Ok? {
      TraceOfTask(history, start, run, task, to, TaskEvent(task, TaskKind(to), reason));
    }
  }

  method MoveRunTo(repo: RunRepository, run: Run, kind: EventType, to: RunState, reason: string,
                   token: CancellationToken, ghost start: nat)
    returns (r: Result<Run, RunError>)
    requires repo.Valid() && KeyedById(repo.tables) && Trace(repo.history, start, run.id)
    requires run.id in repo.tables.runs && repo.tables.runs[run.id] == run && AnnouncesRun(kind, to)
    modifies repo, token
    ensures repo.Valid() && KeyedById(repo.tables) && (token.Never() <==> old(token.Never()))
    ensures Trace(repo.history, start, run.id) && old(repo.history) <= repo.history
    ensures r.Ok? ==> CanMoveRun(run.state, to) && r.value == run.(state := to)
    ensures r.Ok? ==> repo.tables.runs == old(repo.tables.runs)[run.id := r.value]
    ensures r.Ok? ==> |repo.history| > |old(repo.history)| && JustMoved(repo.history, run.id, run.state, to)
    ensures r.Err? ==> repo.tables.runs == old(repo.tables.runs)
    ensures repo.tables.tasks == old(repo.tables.tasks)
    ensures old(token.Never()) && CanMoveRun(run.state, to) ==> r.Ok?
  {
    ghost var history := repo.history;
    var event := RunEvent(run, kind, to, reason);
    r := repo.TransitionRun(run, to, event, token);
    if r.Ok? {
      TraceOfRun(history, start, run.id, run, to, event);
    }
  }

  /** The last thing that happened: the run moved, and its event was appended. */
  ghost predicate JustMoved(history: seq<Tables>, run: RunId, from: RunState, to: RunState) {
    |history| >= 2
    && var before, after := history[|history| - 2], history[|history| - 1];
       && run in before.runs && before.runs[run].state == from
       && |after.events| == |before.events| + 1 && before.events <= after.events
       && IsMoveOf(after.events[|before.events|], run)
       && after.events[|before.events|].payload == RunMove(from, to)
  }

  // --- closing a run ------------------------------------------------------------------------------

  predicate Open(state: TaskState) {
    state == TaskState.Planned || state == TaskState.Blocked || state == TaskState.Ready || state == TaskState.Running
  }

  predicate Closable(state: RunState) {
    state == RunState.Planning || state == RunState.Ready || state == RunState.Running
  }

  /** Cancelled if it is an open task of the run, and otherwise untouched. */
  function CloseTask(task: RunTask, run: RunId): RunTask {
    if task.runId == run && Open(task.state) then task.(state := TaskState.Cancelled) else task
  }

  function ClosedTasks(tasks: map<TaskId, RunTask>, run: RunId): map<TaskId, RunTask> {
    map id | id in tasks :: CloseTask(tasks[id], run)
  }

  function ClosedRuns(runs: map<RunId, Run>, run: RunId): map<RunId, Run>
    requires run in runs
  {
    if Closable(runs[run].state) then runs[run := runs[run].(state := RunState.Cancelled)] else runs
  }

  /** The open tasks among the first i listed are closed, and nothing else changed. */
  ghost predicate ClosedSoFar(before: Tables, after: Tables, run: RunId, rows: seq<RunTask>, i: nat)
    requires i <= |rows|
  {
    && after.runs == before.runs
    && after.tasks.Keys == before.tasks.Keys
    && (forall k :: 0 <= k < i ==> rows[k].id in after.tasks && after.tasks[rows[k].id] == CloseTask(rows[k], run))
    && (forall id :: id in before.tasks && (forall k :: 0 <= k < i ==> rows[k].id != id) ==>
          after.tasks[id] == before.tasks[id])
  }

  lemma NotReachedYet(before: Tables, after: Tables, run: RunId, rows: seq<RunTask>, i: nat)
    requires Lists(rows, before, run) && i < |rows| && ClosedSoFar(before, after, run, rows, i)
    ensures Stored(rows[i], after) && rows[i].runId == run
  {
    assert Stored(rows[i], before);
  }

  lemma ClosedOneMore(before: Tables, middle: Tables, after: Tables, run: RunId, rows: seq<RunTask>, i: nat)
    requires Lists(rows, before, run) && i < |rows| && ClosedSoFar(before, middle, run, rows, i)
    requires after.runs == middle.runs && after.tasks == middle.tasks[rows[i].id := CloseTask(rows[i], run)]
    ensures ClosedSoFar(before, after, run, rows, i + 1)
  {
    NotReachedYet(before, middle, run, rows, i);
  }

  lemma AllClosed(before: Tables, after: Tables, run: RunId, rows: seq<RunTask>)
    requires Lists(rows, before, run) && ClosedSoFar(before, after, run, rows, |rows|)
    ensures after.tasks == ClosedTasks(before.tasks, run)
  {
    forall id | id in before.tasks ensures after.tasks[id] == CloseTask(before.tasks[id], run) {
      if k :| 0 <= k < |rows| && rows[k].id == id {
        assert Stored(rows[k], before);
      } else {
        assert before.tasks[id].runId != run;
      }
    }
  }

  method CloseOne(repo: RunRepository, run: RunId, reason: string, token: CancellationToken, ghost start: nat,
                  ghost before: Tables, rows: seq<RunTask>, i: nat)
    returns (r: Result<(), RunError>)
    requires repo.Valid() && KeyedById(repo.tables) && Trace(repo.history, start, run)
    requires Lists(rows, before, run) && i < |rows| && ClosedSoFar(before, repo.tables, run, rows, i)
    modifies repo, token
    ensures repo.Valid() && KeyedById(repo.tables) && (token.Never() <==> old(token.Never()))
    ensures Trace(repo.history, start, run) && old(repo.history) <= repo.history
    ensures repo.tables.runs == old(repo.tables.runs)
    ensures r.Ok? ==> ClosedSoFar(before, repo.tables, run, rows, i + 1)
    ensures old(token.Never()) ==> r.Ok?
  {
    NotReachedYet(before, repo.tables, run, rows, i);
    ghost var middle := repo.tables;
    if Open(rows[i].state) {
      var _ :- Move(repo, rows[i], TaskState.Cancelled, reason, token, start, run);
    }
    ClosedOneMore(before, middle, repo.tables, run, rows, i);
    return Ok(());
  }

  method CloseTasks(repo: RunRepository, run: RunId, reason: string, token: CancellationToken, ghost start: nat)
    returns (r: Result<(), RunError>)
    requires repo.Valid() && KeyedById(repo.tables) && Trace(repo.history, start, run)
    modifies repo, token
    ensures repo.Valid() && KeyedById(repo.tables) && (token.Never() <==> old(token.Never()))
    ensures Trace(repo.history, start, run) && old(repo.history) <= repo.history
    ensures old(token.Never()) ==> r.Ok?
    ensures r.Ok? ==> repo.tables.tasks == ClosedTasks(old(repo.tables.tasks), run)
    ensures repo.tables.runs == old(repo.tables.runs)
  {
    var rows :- repo.ListTasks(run, token);
    ghost var before := repo.tables;

    for i := 0 to |rows|
      invariant repo.Valid() && KeyedById(repo.tables) && (token.Never() <==> old(token.Never()))
      invariant Trace(repo.history, start, run) && old(repo.history) <= repo.history
      invariant ClosedSoFar(before, repo.tables, run, rows, i)
    {
      var _ :- CloseOne(repo, run, reason, token, start, before, rows, i);
    }
    AllClosed(before, repo.tables, run, rows);
    return Ok(());
  }

  /** Every open task of the run is cancelled and nothing else; so is the run, if it can be. */
  method CancelRun(repo: RunRepository, run: Run, reason: string, token: CancellationToken, ghost start: nat)
    returns (r: Result<Run, RunError>)
    requires repo.Valid() && KeyedById(repo.tables) && Trace(repo.history, start, run.id)
    requires run.id in repo.tables.runs
    modifies repo, token
    ensures repo.Valid() && KeyedById(repo.tables) && (token.Never() <==> old(token.Never()))
    ensures Trace(repo.history, start, run.id) && old(repo.history) <= repo.history
    ensures old(token.Never()) ==> r.Ok?
    ensures r.Ok? ==>
      && repo.tables.tasks == ClosedTasks(old(repo.tables.tasks), run.id)
      && repo.tables.runs == ClosedRuns(old(repo.tables.runs), run.id)
      && r.value == repo.tables.runs[run.id]
    ensures r.Ok? && Closable(old(repo.tables.runs[run.id]).state) ==>
      && |repo.history| > |old(repo.history)|
      && JustMoved(repo.history, run.id, old(repo.tables.runs[run.id]).state, RunState.Cancelled)
  {
    var _ :- CloseTasks(repo, run.id, reason, token, start);
    var found :- repo.FindRun(run.id, token);
    var current := if found.Some? then found.value else run;
    if Closable(current.state) {
      r := MoveRunTo(repo, current, EventType.RunFailed, RunState.Cancelled, reason, token, start);
      return;
    }
    return Ok(current);
  }

  /**
   What cancelling does, by the table of moves: every task of the run ends Succeeded, Failed, Cancelled or
   Superseded; it is changed exactly if it may be cancelled and had not failed; the run is changed exactly
   if it may be cancelled and is not Created; and there is nothing to do twice.
   */
  lemma CancellingCloses(tables: Tables, run: RunId)
    requires KeyedById(tables) && run in tables.runs
    ensures forall id :: id in tables.tasks && tables.tasks[id].runId == run ==>
      ClosedByTable(tables.tasks[id], ClosedTasks(tables.tasks, run)[id])
    ensures forall id :: id in tables.tasks && tables.tasks[id].runId != run ==>
      ClosedTasks(tables.tasks, run)[id] == tables.tasks[id]
    ensures ClosedTasks(tables.tasks, run).Keys == tables.tasks.Keys
    ensures var from := tables.runs[run].state;
      ClosedRuns(tables.runs, run) ==
      if CanMoveRun(from, RunState.Cancelled) && from != RunState.Created
      then tables.runs[run := tables.runs[run].(state := RunState.Cancelled)] else tables.runs
    ensures ClosedTasks(ClosedTasks(tables.tasks, run), run) == ClosedTasks(tables.tasks, run)
    ensures ClosedRuns(ClosedRuns(tables.runs, run), run) == ClosedRuns(tables.runs, run)
  {
  }

  ghost predicate ClosedByTable(before: RunTask, after: RunTask) {
    && after.state in {TaskState.Succeeded, TaskState.Failed, TaskState.Cancelled, TaskState.Superseded}
    && after == if CanMoveTask(before.state, TaskState.Cancelled) && before.state != TaskState.Failed
                then before.(state := TaskState.Cancelled) else before
  }

  // --- the verdict ------------------------------------------------------------------------------------

  /** Where a run goes when its tasks are in these states; None when it stays where it is. */
  ghost function Verdict(states: set<TaskState>): Option<RunState> {
    if states == {} then None
    else if TaskState.Failed in states then Some(RunState.Failed)
    else if TaskState.Cancelled in states then Some(RunState.Cancelled)
    else if forall s :: s in states ==> TaskIsTerminal(s) then Some(RunState.Verifying)
    else None
  }

  ghost function StatesOf(tables: Tables, run: RunId): set<TaskState> {
    set id | id in tables.tasks && tables.tasks[id].runId == run :: tables.tasks[id].state
  }

  method AnyIn(rows: seq<RunTask>, state: TaskState) returns (found: bool)
    ensures found <==> exists i :: 0 <= i < |rows| && rows[i].state == state
  {
    for i := 0 to |rows|
      invariant forall k :: 0 <= k < i ==> rows[k].state != state
    {
      if rows[i].state == state {
        return true;
      }
    }
    return false;
  }

  method AllTerminal(rows: seq<RunTask>) returns (all: bool)
    ensures all <==> forall i :: 0 <= i < |rows| ==> TaskIsTerminal(rows[i].state)
  {
    for i := 0 to |rows|
      invariant forall k :: 0 <= k < i ==> TaskIsTerminal(rows[k].state)
    {
      if !TaskIsTerminal(rows[i].state) {
        return false;
      }
    }
    return true;
  }

  lemma ListedStates(rows: seq<RunTask>, tables: Tables, run: RunId)
    requires Lists(rows, tables, run)
    ensures forall s :: s in StatesOf(tables, run) <==> exists i :: 0 <= i < |rows| && rows[i].state == s
  {
    forall s | s in StatesOf(tables, run) ensures exists i :: 0 <= i < |rows| && rows[i].state == s {
      var id :| id in tables.tasks && tables.tasks[id].runId == run && tables.tasks[id].state == s;
      var i :| 0 <= i < |rows| && rows[i].id == id;
      assert Stored(rows[i], tables);
    }
    forall i | 0 <= i < |rows| ensures rows[i].state in StatesOf(tables, run) {
      assert Stored(rows[i], tables);
    }
  }

  /** A run may stay where it is, and otherwise go where the table of moves lets it. */
  predicate CanBeJudged(from: RunState, verdict: Option<RunState>) {
    verdict.Some? ==> CanMoveRun(from, verdict.value)
  }

  /** Moves the run where Verdict says, and nowhere when its tasks allow no verdict or the move is illegal. */
  method EvaluateCompletion(repo: RunRepository, run: Run, token: CancellationToken, ghost start: nat)
    returns (r: Result<bool, RunError>)
    requires repo.Valid() && KeyedById(repo.tables)
    requires run.id in repo.tables.runs && repo.tables.runs[run.id] == run
    requires Trace(repo.history, start, run.id)
    modifies repo, token
    ensures repo.Valid() && (token.Never() <==> old(token.Never()))
    ensures Trace(repo.history, start, run.id) && old(repo.history) <= repo.history
    ensures var judged := CanBeJudged(run.state, Verdict(StatesOf(old(repo.tables), run.id)));
      (r.Ok? ==> judged) && (old(token.Never()) && judged ==> r.Ok?)
    ensures repo.tables.tasks == old(repo.tables.tasks)
    ensures r.Ok? ==> var verdict := Verdict(StatesOf(old(repo.tables), run.id));
      && (r.value <==> verdict == Some(RunState.Verifying))
      && repo.tables.runs == if verdict.None? then old(repo.tables.runs)
                             else old(repo.tables.runs)[run.id := run.(state := verdict.value)]
    ensures r.Ok? ==> var verdict := Verdict(StatesOf(old(repo.tables), run.id));
      verdict.Some? ==>
        |repo.history| > |old(repo.history)| && JustMoved(repo.history, run.id, run.state, verdict.value)
    ensures r.Err? ==> repo.tables.runs == old(repo.tables.runs)
  {
    var rows :- repo.ListTasks(run.id, token);
    ListedStates(rows, repo.tables, run.id);
    var to := Judge(rows, StatesOf(repo.tables, run.id));
    if to.Some? {
      var _ :- Advance(repo, run, to.value, token, start);
    }
    return Ok(to == Some(RunState.Verifying));
  }

  method Judge(rows: seq<RunTask>, ghost states: set<TaskState>) returns (to: Option<RunState>)
    requires forall s :: s in states <==> exists i :: 0 <= i < |rows| && rows[i].state == s
    ensures to == Verdict(states)
  {
    if |rows| == 0 {
      assert states == {};
      return None;
    }
    assert rows[0].state in states;
    to := None;
    var failed := AnyIn(rows, TaskState.Failed);
    var cancelled := AnyIn(rows, TaskState.Cancelled);
    var finished := AllTerminal(rows);
    if failed {
      to := Some(RunState.Failed);
    } else if cancelled {
      // Stopping on purpose is not failing.
      to := Some(RunState.Cancelled);
    } else if finished {
      to := Some(RunState.Verifying);
    }
  }
}
