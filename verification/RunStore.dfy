/**
 The stored rows of runs and tasks, the event log beside them, and the guarded transitions that
 write a row and its event in one transaction (RunRepository.cs, EventStore.cs).
 */
module RunStore {
  import opened Wrappers
  import opened Domain
  import opened StateMachine

  datatype RunError = InvalidTransition | OperationCanceled | DuplicateKey | KeyNotFound

  datatype EventType =
    | RunStarted | RunCompleted | RunFailed
    | TaskReady | TaskSucceeded | TaskFailed | StateChange

  /** A run event carries where the run goes; a task event only where it came from. */
  datatype Payload =
    | RunMove(previous: RunState, next: RunState)
    | TaskMove(task: TaskId, from: TaskState)

  datatype DomainEvent = DomainEvent(runId: RunId, kind: EventType, payload: Payload, reason: string)

  datatype Tables = Tables(runs: map<RunId, Run>, tasks: map<TaskId, RunTask>, events: seq<DomainEvent>)

  /** A request to stop that may arrive at any moment: here, after some number of polls. */
  class CancellationToken {
    var countdown: Option<nat>

    constructor (polls: Option<nat>)
      ensures countdown == polls
    {
      countdown := polls;
    }

    predicate Never()
      reads this
    {
      countdown.None?
    }

    method Poll() returns (requested: bool)
      modifies this
      ensures requested <==> old(countdown) == Some(0)
      ensures requested ==> countdown == Some(0)
      ensures Never() <==> old(Never())
    {
      requested := countdown == Some(0);
      if countdown.Some? && countdown.value > 0 {
        countdown := Some(countdown.value - 1);
      }
    }
  }

  // --- one committed statement -----------------------------------------------------------

  datatype Step =
    | SaveTask(row: RunTask)
    | MoveRun(run: RunId, runTo: RunState, runEvent: DomainEvent)
    | MoveTask(task: TaskId, taskTo: TaskState, taskEvent: DomainEvent)

  /** What the event of a task says about where the task went. */
  ghost predicate Announces(kind: EventType, to: TaskState) {
    match kind
    case TaskReady => to == TaskState.Ready
    case StateChange => to == TaskState.Running
    case TaskSucceeded => to == TaskState.Succeeded
    case TaskFailed => to == TaskState.Failed || to == TaskState.Cancelled
    case _ => false
  }

  /** What the event of a run says about where the run went; a cancelled run is logged as a failed one or a change. */
  ghost predicate AnnouncesRun(kind: EventType, to: RunState) {
    match kind
    case RunStarted => to == RunState.Planning
    case RunCompleted => to == RunState.Completed
    case RunFailed => to == RunState.Failed || to == RunState.Cancelled
    case StateChange => to != RunState.Completed && to != RunState.Failed
    case _ => false
  }

  /** The step is a legal move of the stored row, and its event tells it truthfully. */
  ghost predicate Legal(before: Tables, step: Step) {
    match step
    case SaveTask(row) =>
      row.id !in before.tasks && row.state == TaskState.Planned
    case MoveRun(id, to, event) =>
      && id in before.runs
      && event.runId == id
      && event.payload == RunMove(before.runs[id].state, to)
      && CanMoveRun(before.runs[id].state, to)
      && AnnouncesRun(event.kind, to)
    case MoveTask(id, to, event) =>
      && id in before.tasks
      && event.runId == before.tasks[id].runId
      && event.payload == TaskMove(id, before.tasks[id].state)
      && CanMoveTask(before.tasks[id].state, to)
      && Announces(event.kind, to)
  }

  ghost function Apply(before: Tables, step: Step): Tables
    requires Legal(before, step)
  {
    match step
    case SaveTask(row) => before.(tasks := before.tasks[row.id := row])
    case MoveRun(id, to, event) =>
      before.(runs := before.runs[id := before.runs[id].(state := to)], events := before.events + [event])
    case MoveTask(id, to, event) =>
      before.(tasks := before.tasks[id := before.tasks[id].(state := to)], events := before.events + [event])
  }

  ghost predicate Explains(before: Tables, after: Tables) {
    exists step :: Legal(before, step) && after == Apply(before, step)
  }

  /** From point start on, every committed change is one legal, explained step. */
  ghost predicate Explained(history: seq<Tables>, start: nat) {
    forall i :: start < i < |history| ==> ExplainedAt(history, i)
  }

  ghost predicate ExplainedAt(history: seq<Tables>, i: nat)
    requires 0 < i < |history|
  {
    Explains(history[i - 1], history[i])
  }

  lemma ExplainedStep(history: seq<Tables>, start: nat, step: Step)
    requires start < |history| && Explained(history, start)
    requires Legal(history[|history| - 1], step)
    ensures Explained(history + [Apply(history[|history| - 1], step)], start)
  {
    var longer := history + [Apply(history[|history| - 1], step)];
    forall i | start < i < |longer| ensures ExplainedAt(longer, i) {
      if i == |history| {
        assert Legal(longer[i - 1], step) && longer[i] == Apply(longer[i - 1], step);
      } else {
        assert ExplainedAt(history, i);
      }
    }
  }

  // --- the repository ---------------------------------------------------------------------

  /** The database, with every state it has committed: what a crash at any point would leave. */
  class RunRepository {
    var tables: Tables
    ghost var history: seq<Tables>

    ghost predicate Valid()
      reads this
    {
      history != [] && history[|history| - 1] == tables
    }

    constructor (stored: Tables)
      ensures Valid() && tables == stored && history == [stored]
    {
      tables, history := stored, [stored];
    }

    /** Lands a write, unless the token stops it first; nothing is written then. */
    method Commit(after: Tables, token: CancellationToken) returns (r: Result<(), RunError>)
      requires Valid()
      modifies this, token
      ensures Valid() && (token.Never() <==> old(token.Never()))
      ensures r.Ok? ==> tables == after && history == old(history) + [after]
      ensures r.Err? ==> r.error == OperationCanceled && tables == old(tables) && history == old(history)
      ensures old(token.Never()) ==> r.Ok?
    {
      var requested := token.Poll();
      if requested {
        return Err(OperationCanceled);
      }
      tables, history := after, history + [after];
      return Ok(());
    }

    method FindRun(id: RunId, token: CancellationToken) returns (r: Result<Option<Run>, RunError>)
      modifies token
      ensures token.Never() <==> old(token.Never())
      ensures old(token.Never()) ==> r.Ok?
      ensures r.Ok? ==> r.value == if id in tables.runs then Some(tables.runs[id]) else None
      ensures r.Err? ==> r.error == OperationCanceled
    {
      var requested := token.Poll();
      if requested {
        return Err(OperationCanceled);
      }
      return Ok(if id in tables.runs then Some(tables.runs[id]) else None);
    }

    /** The rows of one run. They are ordered by creation time, which all of them share. */
    method ListTasks(id: RunId, token: CancellationToken) returns (r: Result<seq<RunTask>, RunError>)
      requires KeyedById(tables)
      modifies token
      ensures token.Never() <==> old(token.Never())
      ensures old(token.Never()) ==> r.Ok?
      ensures r.Ok? ==> Lists(r.value, tables, id)
      ensures r.Err? ==> r.error == OperationCanceled
    {
      var requested := token.Poll();
      if requested {
        return Err(OperationCanceled);
      }
      var left := set key | key in tables.tasks && tables.tasks[key].runId == id;
      var rows: seq<RunTask> := [];
      while left != {}
        invariant Listing(rows, left, tables, id) && (token.Never() <==> old(token.Never()))
        decreases left
      {
        var key :| key in left;
        ListOneMore(rows, left, tables, id, key);
        rows, left := rows + [tables.tasks[key]], left - {key};
      }
      return Ok(rows);
    }

    method SaveTask(task: RunTask, token: CancellationToken) returns (r: Result<(), RunError>)
      requires Valid()
      modifies this, token
      ensures Valid() && (token.Never() <==> old(token.Never()))
      ensures r.Ok? ==> tables == old(tables).(tasks := old(tables.tasks)[task.id := task])
      ensures r.Ok? ==> history == old(history) + [tables]
      ensures r.Err? ==> r.error == OperationCanceled && tables == old(tables) && history == old(history)
      ensures old(token.Never()) ==> r.Ok?
    {
      r := Commit(tables.(tasks := tables.tasks[task.id := task]), token);
    }

    /** Moves a run and appends its event. The guard reads the caller's copy, not the row. */
    method TransitionRun(run: Run, to: RunState, event: DomainEvent, token: CancellationToken)
      returns (r: Result<Run, RunError>)
      requires Valid()
      modifies this, token
      ensures Valid() && (token.Never() <==> old(token.Never()))
      ensures r.Ok? ==> CanMoveRun(run.state, to) && r.value == run.(state := to)
      ensures r.Ok? ==>
        tables == old(tables).(runs := old(tables.runs)[run.id := r.value], events := old(tables.events) + [event])
      ensures r.Ok? ==> history == old(history) + [tables]
      ensures r.Err? ==> tables == old(tables) && history == old(history)
      ensures old(token.Never()) && CanMoveRun(run.state, to) ==> r.Ok?
      ensures !CanMoveRun(run.state, to) ==> r == Err(InvalidTransition)
    {
      if !CanMoveRun(run.state, to) {
        return Err(InvalidTransition);
      }
      var updated := run.(state := to);
      var _ :- Commit(tables.(runs := tables.runs[run.id := updated], events := tables.events + [event]), token);
      return Ok(updated);
    }

    method TransitionTask(task: RunTask, to: TaskState, event: DomainEvent, token: CancellationToken)
      returns (r: Result<RunTask, RunError>)
      requires Valid()
      modifies this, token
      ensures Valid() && (token.Never() <==> old(token.Never()))
      ensures r.Ok? ==> CanMoveTask(task.state, to) && r.value == task.(state := to)
      ensures r.Ok? ==>
        tables == old(tables).(tasks := old(tables.tasks)[task.id := r.value], events := old(tables.events) + [event])
      ensures r.Ok? ==> history == old(history) + [tables]
      ensures r.Err? ==> tables == old(tables) && history == old(history)
      ensures old(token.Never()) && CanMoveTask(task.state, to) ==> r.Ok?
      ensures !CanMoveTask(task.state, to) ==> r == Err(InvalidTransition)
    {
      if !CanMoveTask(task.state, to) {
        return Err(InvalidTransition);
      }
      var updated := task.(state := to);
      var _ :- Commit(tables.(tasks := tables.tasks[task.id := updated], events := tables.events + [event]), token);
      return Ok(updated);
    }
  }

  /** A primary key: each row is stored under its own id. */
  ghost predicate KeyedById(tables: Tables) {
    && (forall id :: id in tables.tasks ==> tables.tasks[id].id == id)
    && (forall id :: id in tables.runs ==> tables.runs[id].id == id)
  }

  ghost predicate Stored(task: RunTask, tables: Tables) {
    task.id in tables.tasks && tables.tasks[task.id] == task
  }

  /** The rows of a run, each once, in whatever order the query yields them. */
  ghost predicate Lists(rows: seq<RunTask>, tables: Tables, id: RunId) {
    && (forall i :: 0 <= i < |rows| ==> Stored(rows[i], tables) && rows[i].runId == id)
    && (forall i, j :: 0 <= i < j < |rows| ==> rows[i].id != rows[j].id)
    && (forall key :: key in tables.tasks && tables.tasks[key].runId == id ==>
          exists i :: 0 <= i < |rows| && rows[i].id == key)
  }

  /** The rows listed so far, and the keys still to be listed. */
  ghost predicate Listing(rows: seq<RunTask>, left: set<TaskId>, tables: Tables, id: RunId) {
    && (forall key :: key in left ==> key in tables.tasks && tables.tasks[key].runId == id)
    && (forall i :: 0 <= i < |rows| ==> Stored(rows[i], tables) && rows[i].runId == id && rows[i].id !in left)
    && (forall i, j :: 0 <= i < j < |rows| ==> rows[i].id != rows[j].id)
    && (forall key :: key in tables.tasks && tables.tasks[key].runId == id && key !in left ==>
          exists i :: 0 <= i < |rows| && rows[i].id == key)
  }

  lemma ListOneMore(rows: seq<RunTask>, left: set<TaskId>, tables: Tables, id: RunId, key: TaskId)
    requires KeyedById(tables) && Listing(rows, left, tables, id) && key in left
    ensures Listing(rows + [tables.tasks[key]], left - {key}, tables, id)
  {
    var longer := rows + [tables.tasks[key]];
    forall other | other in tables.tasks && tables.tasks[other].runId == id && other !in left - {key}
      ensures exists i :: 0 <= i < |longer| && longer[i].id == other
    {
      if other == key {
        assert longer[|rows|].id == other;
      } else {
        var i :| 0 <= i < |rows| && rows[i].id == other;
        assert longer[i].id == other;
      }
    }
  }

  // --- the log explains the state ------------------------------------------------------------

  /** The moves of one run, as its events tell them. */
  function MovesOf(events: seq<DomainEvent>, id: RunId): seq<Payload> {
    if events == [] then []
    else
      var last := events[|events| - 1];
      var earlier := MovesOf(events[..|events| - 1], id);
      if last.runId == id && last.payload.RunMove? then earlier + [last.payload] else earlier
  }

  /** Each move starts where the one before ended, and is legal; together they lead from a to b. */
  ghost predicate Leads(a: RunState, moves: seq<Payload>, b: RunState) {
    if moves == [] then a == b
    else
      var last := moves[|moves| - 1];
      && last.RunMove?
      && last.next == b
      && CanMoveRun(last.previous, last.next)
      && Leads(a, moves[..|moves| - 1], last.previous)
  }

  ghost predicate LogLeadsTo(tables: Tables, id: RunId) {
    id in tables.runs && Leads(RunState.Created, MovesOf(tables.events, id), tables.runs[id].state)
  }

  lemma MovesAfter(events: seq<DomainEvent>, event: DomainEvent, id: RunId)
    ensures MovesOf(events + [event], id) ==
            if event.runId == id && event.payload.RunMove? then MovesOf(events, id) + [event.payload]
            else MovesOf(events, id)
  {
    assert (events + [event])[..|events|] == events;
  }

  lemma LeadsFurther(a: RunState, moves: seq<Payload>, b: RunState, to: RunState)
    requires Leads(a, moves, b) && CanMoveRun(b, to)
    ensures Leads(a, moves + [RunMove(b, to)], to)
  {
    assert (moves + [RunMove(b, to)])[..|moves|] == moves;
  }

  lemma MoveKeepsLog(before: Tables, run: RunId, to: RunState, event: DomainEvent, id: RunId)
    requires Legal(before, MoveRun(run, to, event)) && LogLeadsTo(before, id)
    ensures LogLeadsTo(Apply(before, MoveRun(run, to, event)), id)
  {
    MovesAfter(before.events, event, id);
    if run == id {
      LeadsFurther(RunState.Created, MovesOf(before.events, id), before.runs[id].state, to);
    }
  }

  lemma StepKeepsLog(before: Tables, after: Tables, id: RunId)
    requires Explains(before, after) && LogLeadsTo(before, id)
    ensures LogLeadsTo(after, id)
  {
    var step :| Legal(before, step) && after == Apply(before, step);
    match step
    case SaveTask(_) =>
    case MoveTask(_, _, event) => MovesAfter(before.events, event, id);
    case MoveRun(run, to, event) => MoveKeepsLog(before, run, to, event, id);
  }

  /**
   At every crash point, the events of a run form a chain of legal moves from Created to the state
   its row holds.
   */
  lemma {:induction false} LogExplainsRun(history: seq<Tables>, start: nat, k: nat, id: RunId)
    requires start <= k < |history| && Explained(history, start) && LogLeadsTo(history[start], id)
    ensures LogLeadsTo(history[k], id)
  {
    if start < k {
      LogExplainsRun(history, start, k - 1, id);
      assert ExplainedAt(history, k);
      StepKeepsLog(history[k - 1], history[k], id);
    }
  }

  /** The states a run passes on its way to running. */
  predicate OnItsWay(state: RunState) {
    state == RunState.Planning || state == RunState.Ready || state == RunState.Running
  }

  /** What the log gained tells of the run nothing but moves on its way to running. */
  ghost predicate ToldOnItsWay(before: Tables, after: Tables, id: RunId) {
    && before.events <= after.events
    && forall i :: |before.events| <= i < |after.events| && IsMoveOf(after.events[i], id) ==>
      OnItsWay(after.events[i].payload.next)
  }

  predicate IsMoveOf(event: DomainEvent, id: RunId) {
    event.runId == id && event.payload.RunMove?
  }

  /** As long as a run has not left Running, its log has told only moves on its way there. */
  lemma {:induction false} RunningTold(history: seq<Tables>, start: nat, k: nat, id: RunId)
    requires start <= k < |history| && Explained(history, start)
    requires id in history[k].runs &&
      (history[k].runs[id].state == RunState.Created || OnItsWay(history[k].runs[id].state))
    ensures ToldOnItsWay(history[start], history[k], id)
  {
    if start < k {
      assert ExplainedAt(history, k);
      StepKeepsRuns(history[k - 1], history[k]);
      OneStepTold(history[k - 1], history[k], id);
      RunningTold(history, start, k - 1, id);
      assert forall i :: 0 <= i < |history[k - 1].events| ==> history[k].events[i] == history[k - 1].events[i];
    }
  }

  lemma StepKeepsRuns(before: Tables, after: Tables)
    requires Explains(before, after)
    ensures after.runs.Keys == before.runs.Keys
  {
  }

  lemma OneStepTold(before: Tables, after: Tables, id: RunId)
    requires Explains(before, after) && id in after.runs && id in before.runs
    requires after.runs[id].state == RunState.Created || OnItsWay(after.runs[id].state)
    ensures before.runs[id].state == RunState.Created || OnItsWay(before.runs[id].state)
    ensures ToldOnItsWay(before, after, id)
  {
    var step :| Legal(before, step) && after == Apply(before, step);
    assert step.MoveRun? && step.run == id ==> step.runTo == after.runs[id].state;
  }

  function LastOf(events: seq<DomainEvent>, task: TaskId): (last: Option<DomainEvent>)
    ensures last.Some? ==> last.value.payload.TaskMove?
  {
    if events == [] then None
    else
      var last := events[|events| - 1];
      if last.payload.TaskMove? && last.payload.task == task then Some(last)
      else LastOf(events[..|events| - 1], task)
  }

  ghost predicate Tells(event: Option<DomainEvent>, state: TaskState)
    requires event.Some? ==> event.value.payload.TaskMove?
  {
    match event
    case None => state == TaskState.Planned
    case Some(e) => Announces(e.kind, state) && CanMoveTask(e.payload.from, state)
  }

  /** The log and the row of a task agree; a task without a row has no event. */
  ghost predicate LogTells(tables: Tables, id: TaskId) {
    if id in tables.tasks then Tells(LastOf(tables.events, id), tables.tasks[id].state)
    else LastOf(tables.events, id).None?
  }

  lemma LastAfter(events: seq<DomainEvent>, event: DomainEvent, id: TaskId)
    ensures LastOf(events + [event], id) ==
            if event.payload.TaskMove? && event.payload.task == id then Some(event) else LastOf(events, id)
  {
    assert (events + [event])[..|events|] == events;
  }

  lemma StepKeepsTelling(before: Tables, after: Tables, id: TaskId)
    requires Explains(before, after) && LogTells(before, id)
    ensures LogTells(after, id)
  {
    var step :| Legal(before, step) && after == Apply(before, step);
    match step
    case SaveTask(_) =>
    case MoveTask(_, _, event) => LastAfter(before.events, event, id);
    case MoveRun(_, _, event) => LastAfter(before.events, event, id);
  }

  /**
   At every crash point, the last event of a task tells its stored state, except that a failed
   task and a cancelled one read alike.
   */
  lemma {:induction false} LogTellsTasks(history: seq<Tables>, start: nat, k: nat, id: TaskId)
    requires start <= k < |history| && Explained(history, start) && LogTells(history[start], id)
    ensures LogTells(history[k], id)
  {
    if start < k {
      LogTellsTasks(history, start, k - 1, id);
      assert ExplainedAt(history, k);
      StepKeepsTelling(history[k - 1], history[k], id);
    }
  }

  // --- what the log cannot tell ----------------------------------------------------------------

  /** The event says that the task failed, and left from where it may also have been cancelled. */
  ghost predicate Ambiguous(event: Option<DomainEvent>)
    requires event.Some? ==> event.value.payload.TaskMove?
  {
    event.Some? && event.value.kind == TaskFailed
    && CanMoveTask(event.value.payload.from, TaskState.Failed)
    && CanMoveTask(event.value.payload.from, TaskState.Cancelled)
  }

  lemma ToldOnce(event: Option<DomainEvent>, one: TaskState, other: TaskState)
    requires event.Some? ==> event.value.payload.TaskMove?
    requires Tells(event, one) && Tells(event, other) && !Ambiguous(event)
    ensures one == other
  {
  }

  function WithState(tables: Tables, id: TaskId, state: TaskState): Tables
    requires id in tables.tasks
  {
    tables.(tasks := tables.tasks[id := tables.tasks[id].(state := state)])
  }

  /** Changes that start from the same tables and leave the same log. */
  ghost predicate SameLog(other: seq<Tables>, first: Tables, events: seq<DomainEvent>) {
    other != [] && other[0] == first && Explained(other, 0) && other[|other| - 1].events == events
  }

  /** Another history with the same log, in which the ambiguous event of the task meant the other state. */
  lemma {:induction false} OtherMeaning(history: seq<Tables>, start: nat, k: nat, id: TaskId, to: TaskState)
    returns (other: seq<Tables>)
    requires start <= k < |history| && Explained(history, start) && id !in history[start].tasks
    requires LogTells(history[start], id) && id in history[k].tasks
    requires Ambiguous(LastOf(history[k].events, id)) && (to == TaskState.Failed || to == TaskState.Cancelled)
    ensures SameLog(other, history[start], history[k].events)
    ensures other[|other| - 1] == WithState(history[k], id, to)
    decreases k
  {
    assert ExplainedAt(history, k);
    var before := history[k - 1];
    var step :| Legal(before, step) && history[k] == Apply(before, step);
    if step.MoveTask? && step.task == id {
      LastAfter(before.events, step.taskEvent, id);
      MeantOtherwise(before, step, to);
      other := UpTo(history, start, k - 1);
      other := Append(other, MoveTask(id, to, step.taskEvent));
    } else {
      EarlierMeaning(history, start, k, id, step);
      MovesElsewhere(before, step, id, to);
      other := OtherMeaning(history, start, k - 1, id, to);
      other := Append(other, step);
    }
  }

  lemma MeantOtherwise(before: Tables, step: Step, to: TaskState)
    requires Legal(before, step) && step.MoveTask?
    requires step.taskEvent.payload.TaskMove? && Ambiguous(Some(step.taskEvent))
    requires to == TaskState.Failed || to == TaskState.Cancelled
    ensures var otherwise := MoveTask(step.task, to, step.taskEvent);
      && Legal(before, otherwise) && Apply(before, otherwise) == WithState(Apply(before, step), step.task, to)
  {
  }

  lemma MovesElsewhere(before: Tables, step: Step, id: TaskId, to: TaskState)
    requires Legal(before, step) && id in before.tasks && !(step.MoveTask? && step.task == id)
    ensures Legal(WithState(before, id, to), step) && id in Apply(before, step).tasks
    ensures Apply(WithState(before, id, to), step) == WithState(Apply(before, step), id, to)
  {
  }

  lemma EarlierMeaning(history: seq<Tables>, start: nat, k: nat, id: TaskId, step: Step)
    requires start < k < |history| && Explained(history, start) && LogTells(history[start], id)
    requires Legal(history[k - 1], step) && history[k] == Apply(history[k - 1], step)
    requires !(step.MoveTask? && step.task == id) && LastOf(history[k].events, id).Some?
    ensures LastOf(history[k - 1].events, id) == LastOf(history[k].events, id)
    ensures id in history[k - 1].tasks
  {
    LogTellsTasks(history, start, k - 1, id);
    match step
    case SaveTask(_) =>
    case MoveTask(_, _, event) => LastAfter(history[k - 1].events, event, id);
    case MoveRun(_, _, event) => LastAfter(history[k - 1].events, event, id);
  }

  lemma UpTo(history: seq<Tables>, start: nat, k: nat) returns (other: seq<Tables>)
    requires start <= k < |history| && Explained(history, start)
    ensures SameLog(other, history[start], history[k].events) && other[|other| - 1] == history[k]
  {
    other := history[start..k + 1];
    forall i | 0 < i < |other| ensures ExplainedAt(other, i) {
      assert ExplainedAt(history, start + i);
    }
  }

  lemma Append(history: seq<Tables>, step: Step) returns (longer: seq<Tables>)
    requires history != [] && Explained(history, 0) && Legal(history[|history| - 1], step)
    ensures Explained(longer, 0) && longer != [] && longer[0] == history[0]
    ensures longer[|longer| - 1] == Apply(history[|history| - 1], step)
  {
    ExplainedStep(history, 0, step);
    longer := history + [Apply(history[|history| - 1], step)];
  }

  /** Every history from the same tables with the same log leaves the task in this state. */
  ghost predicate LogDetermines(first: Tables, events: seq<DomainEvent>, id: TaskId, state: TaskState) {
    forall other: seq<Tables> :: SameLog(other, first, events) && id in other[|other| - 1].tasks ==>
      other[|other| - 1].tasks[id].state == state
  }

  /**
   The log determines the state of a task exactly unless the last it says of the task is that it failed,
   out of a state from which it can be cancelled as well.
   */
  lemma LogDeterminesIff(history: seq<Tables>, start: nat, k: nat, id: TaskId)
    requires start <= k < |history| && Explained(history, start) && id !in history[start].tasks
    requires LogTells(history[start], id) && id in history[k].tasks
    ensures LogDetermines(history[start], history[k].events, id, history[k].tasks[id].state) <==>
            !Ambiguous(LastOf(history[k].events, id))
  {
    var state, last := history[k].tasks[id].state, LastOf(history[k].events, id);
    LogTellsTasks(history, start, k, id);
    if Ambiguous(last) {
      var to := if state == TaskState.Failed then TaskState.Cancelled else TaskState.Failed;
      var other := OtherMeaning(history, start, k, id, to);
      assert other[|other| - 1].tasks[id].state != state;
    } else {
      forall other: seq<Tables> | SameLog(other, history[start], history[k].events) && id in other[|other| - 1].tasks
        ensures other[|other| - 1].tasks[id].state == state
      {
        LogTellsTasks(other, 0, |other| - 1, id);
        ToldOnce(last, other[|other| - 1].tasks[id].state, state);
      }
    }
  }
}
