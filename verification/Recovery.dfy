/** Reopening a run whose process died (recover_run in scheduler.py). */
module Recovery {
  import opened Wrappers
  import opened Domain
  import opened StateMachine
  import opened RunStore

  datatype AttemptId = AttemptId(value: string)

  datatype Attempt = Attempt(id: AttemptId, task: TaskId, runId: RunId, runner: string, state: AttemptState)

  /** What a recovery event says: which row it closed, and what the row's state was. */
  datatype What =
    | AttemptClosedAs(attempt: AttemptId, from: AttemptState)
    | TaskClosedAs(task: TaskId, before: TaskState)
    | RunBlocked(previous: RunState)

  datatype Event = Event(runId: RunId, what: What)

  datatype Store = Store(
    runs: map<RunId, Run>, tasks: map<TaskId, RunTask>, attempts: map<AttemptId, Attempt>, events: seq<Event>)

  datatype Report = Report(run: Run, orphanedTasks: seq<TaskId>, orphanedAttempts: seq<AttemptId>)

  // --- what recovering a run comes to ------------------------------------------------------------

  predicate OrphanedAttempt(attempt: Attempt, run: RunId) {
    attempt.runId == run && (attempt.state == AttemptState.Starting || attempt.state == AttemptState.Running)
  }

  predicate OrphanedTask(task: RunTask, run: RunId) {
    task.runId == run && task.state == TaskState.Running
  }

  function ClosedAttempt(attempt: Attempt, run: RunId): Attempt {
    if OrphanedAttempt(attempt, run) then attempt.(state := AttemptState.Failed) else attempt
  }

  function ClosedTask(task: RunTask, run: RunId): RunTask {
    if OrphanedTask(task, run) then task.(state := TaskState.Failed) else task
  }

  function ClosedAttempts(s: Store, run: RunId): map<AttemptId, Attempt> {
    map id | id in s.attempts :: ClosedAttempt(s.attempts[id], run)
  }

  function ClosedTasks(s: Store, run: RunId): map<TaskId, RunTask> {
    map id | id in s.tasks :: ClosedTask(s.tasks[id], run)
  }

  ghost predicate HasOrphanedTask(s: Store, run: RunId) {
    exists id :: id in s.tasks && OrphanedTask(s.tasks[id], run)
  }

  ghost predicate IsBlocked(s: Store, run: RunId) {
    run in s.runs && s.runs[run].state == RunState.Running && HasOrphanedTask(s, run)
  }

  ghost function BlockedRuns(s: Store, run: RunId): map<RunId, Run> {
    if IsBlocked(s, run) then s.runs[run := s.runs[run].(state := RunState.Blocked)] else s.runs
  }

  /** One event for every row that changes, in the order the report names them, and the run's last. */
  ghost function EventsOf(s: Store, run: RunId, report: Report): seq<Event>
    requires Names(s, run, report)
  {
    AttemptEvents(s, run, report.orphanedAttempts) + TaskEvents(s, run, report.orphanedTasks) +
    if IsBlocked(s, run) then [Event(run, RunBlocked(RunState.Running))] else []
  }

  ghost function AttemptEvents(s: Store, run: RunId, ids: seq<AttemptId>): seq<Event>
    requires forall k :: 0 <= k < |ids| ==> ids[k] in s.attempts
  {
    seq(|ids|, k requires 0 <= k < |ids| => Event(run, AttemptClosedAs(ids[k], s.attempts[ids[k]].state)))
  }

  ghost function TaskEvents(s: Store, run: RunId, ids: seq<TaskId>): seq<Event>
    requires forall k :: 0 <= k < |ids| ==> ids[k] in s.tasks
  {
    seq(|ids|, k requires 0 <= k < |ids| => Event(run, TaskClosedAs(ids[k], TaskState.Running)))
  }

  /** The report names exactly the orphans, each once. */
  ghost predicate Names(s: Store, run: RunId, report: Report) {
    && NamesAttempts(s, run, report.orphanedAttempts)
    && NamesTasks(s, run, report.orphanedTasks)
  }

  ghost predicate NamesAttempts(s: Store, run: RunId, ids: seq<AttemptId>) {
    && (forall k :: 0 <= k < |ids| ==> ids[k] in s.attempts)
    && (forall k, l :: 0 <= k < l < |ids| ==> ids[k] != ids[l])
    && (forall id :: id in s.attempts ==> (id in ids <==> OrphanedAttempt(s.attempts[id], run)))
  }

  ghost predicate NamesTasks(s: Store, run: RunId, ids: seq<TaskId>) {
    && (forall k :: 0 <= k < |ids| ==> ids[k] in s.tasks)
    && (forall k, l :: 0 <= k < l < |ids| ==> ids[k] != ids[l])
    && (forall id :: id in s.tasks ==> (id in ids <==> OrphanedTask(s.tasks[id], run)))
  }

  // --- the database ----------------------------------------------------------------------------------

  /** The stored rows, each under its own id. */
  class Database {
    var store: Store

    ghost predicate Valid()
      reads this
    {
      && (forall id :: id in store.attempts ==> store.attempts[id].id == id)
      && (forall id :: id in store.tasks ==> store.tasks[id].id == id)
      && (forall id :: id in store.runs ==> store.runs[id].id == id)
    }

    constructor (stored: Store)
      ensures store == stored
    {
      store := stored;
    }

    /** Lands a row and its event together, unless the process dies first. */
    method Commit(after: Store, token: CancellationToken) returns (r: Result<(), RunError>)
      modifies this, token
      ensures r.Ok? ==> store == after
      ensures r.Err? ==> store == old(store) && r.error == OperationCanceled
      ensures token.Never() <==> old(token.Never())
      ensures old(token.Never()) ==> r.Ok?
    {
      var requested := token.Poll();
      if requested {
        return Err(OperationCanceled);
      }
      store := after;
      return Ok(());
    }

    /** Closes one attempt and appends the event that explains it. */
    method FailAttempt(id: AttemptId, run: RunId, token: CancellationToken) returns (r: Result<(), RunError>)
      requires id in store.attempts
      modifies this, token
      ensures r.Ok? ==> CanMoveAttempt(old(store).attempts[id].state, AttemptState.Failed)
      ensures r.Ok? ==> store == AttemptClosed(old(store), id, run)
      ensures r.Err? ==> store == old(store)
      ensures token.Never() <==> old(token.Never())
      ensures old(token.Never()) && CanMoveAttempt(old(store).attempts[id].state, AttemptState.Failed) ==> r.Ok?
    {
      if !CanMoveAttempt(store.attempts[id].state, AttemptState.Failed) {
        return Err(InvalidTransition);
      }
      r := Commit(AttemptClosed(store, id, run), token);
    }

    method FailTask(id: TaskId, run: RunId, token: CancellationToken) returns (r: Result<(), RunError>)
      requires id in store.tasks
      modifies this, token
      ensures r.Ok? ==> CanMoveTask(old(store).tasks[id].state, TaskState.Failed)
      ensures r.Ok? ==> store == TaskClosed(old(store), id, run)
      ensures r.Err? ==> store == old(store)
      ensures token.Never() <==> old(token.Never())
      ensures old(token.Never()) && CanMoveTask(old(store).tasks[id].state, TaskState.Failed) ==> r.Ok?
    {
      if !CanMoveTask(store.tasks[id].state, TaskState.Failed) {
        return Err(InvalidTransition);
      }
      r := Commit(TaskClosed(store, id, run), token);
    }

    method BlockRun(run: Run, token: CancellationToken) returns (r: Result<Run, RunError>)
      modifies this, token
      ensures r.Ok? ==> CanMoveRun(run.state, RunState.Blocked) && r.value == run.(state := RunState.Blocked)
      ensures r.Ok? ==> store == RunMoved(old(store), run)
      ensures r.Err? ==> store == old(store)
      ensures token.Never() <==> old(token.Never())
      ensures old(token.Never()) && CanMoveRun(run.state, RunState.Blocked) ==> r.Ok?
    {
      if !CanMoveRun(run.state, RunState.Blocked) {
        return Err(InvalidTransition);
      }
      var _ :- Commit(RunMoved(store, run), token);
      return Ok(run.(state := RunState.Blocked));
    }
  }

  function AttemptClosed(s: Store, id: AttemptId, run: RunId): Store
    requires id in s.attempts
  {
    s.(attempts := s.attempts[id := s.attempts[id].(state := AttemptState.Failed)],
       events := s.events + [Event(run, AttemptClosedAs(id, s.attempts[id].state))])
  }

  function TaskClosed(s: Store, id: TaskId, run: RunId): Store
    requires id in s.tasks
  {
    s.(tasks := s.tasks[id := s.tasks[id].(state := TaskState.Failed)],
       events := s.events + [Event(run, TaskClosedAs(id, s.tasks[id].state))])
  }

  function RunMoved(s: Store, run: Run): Store {
    s.(runs := s.runs[run.id := run.(state := RunState.Blocked)],
       events := s.events + [Event(run.id, RunBlocked(run.state))])
  }

  // --- closing one row after another --------------------------------------------------------------------

  /** Every key of the map with its row in the run, once, in whatever order the query yields them. */
  method KeysOf<K(==), R>(rows: map<K, R>, own: R -> bool) returns (keys: seq<K>)
    ensures forall k :: 0 <= k < |keys| ==> keys[k] in rows && own(rows[keys[k]])
    ensures forall k, l :: 0 <= k < l < |keys| ==> keys[k] != keys[l]
    ensures forall key :: key in rows && own(rows[key]) ==> key in keys
  {
    keys := [];
    var left := rows.Keys;
    while left != {}
      invariant left <= rows.Keys
      invariant forall k :: 0 <= k < |keys| ==> keys[k] in rows && own(rows[keys[k]]) && keys[k] !in left
      invariant forall k, l :: 0 <= k < l < |keys| ==> keys[k] != keys[l]
      invariant forall key :: key in rows && own(rows[key]) ==> key in keys || key in left
      decreases left
    {
      var key :| key in left;
      if own(rows[key]) {
        keys := keys + [key];
      }
      left := left - {key};
    }
  }

  /** The orphans among the first i listed are closed and named, and nothing else has changed. */
  ghost predicate AttemptsSoFar(before: Store, after: Store, run: RunId, listed: seq<AttemptId>, i: nat,
                                named: seq<AttemptId>)
    requires i <= |listed|
  {
    && after.runs == before.runs && after.tasks == before.tasks
    && after.attempts.Keys == before.attempts.Keys
    && (forall k :: 0 <= k < |named| ==> named[k] in before.attempts)
    && (forall id :: id in before.attempts ==>
          after.attempts[id] ==
          if id in listed[..i] then ClosedAttempt(before.attempts[id], run) else before.attempts[id])
    && (forall id :: id in named <==>
          id in listed[..i] && id in before.attempts && OrphanedAttempt(before.attempts[id], run))
    && (forall k, l :: 0 <= k < l < |named| ==> named[k] != named[l])
    && after.events == before.events + AttemptEvents(before, run, named)
  }

  lemma SameAttempt(before: Store, after: Store, run: RunId, listed: seq<AttemptId>, i: nat, named: seq<AttemptId>)
    requires i < |listed| && AttemptsSoFar(before, after, run, listed, i, named)
    requires forall k :: 0 <= k < |listed| ==> listed[k] in before.attempts
    requires forall k, l :: 0 <= k < l < |listed| ==> listed[k] != listed[l]
    ensures listed[i] in after.attempts && after.attempts[listed[i]] == before.attempts[listed[i]]
    ensures listed[i] !in named
  {
    assert listed[i] !in listed[..i];
  }

  lemma SkipAttempt(before: Store, after: Store, run: RunId, listed: seq<AttemptId>, i: nat, named: seq<AttemptId>)
    requires i < |listed| && AttemptsSoFar(before, after, run, listed, i, named)
    requires listed[i] in before.attempts && !OrphanedAttempt(before.attempts[listed[i]], run)
    ensures AttemptsSoFar(before, after, run, listed, i + 1, named)
  {
    assert listed[..i + 1] == listed[..i] + [listed[i]];
  }

  lemma CloseAttempt(before: Store, middle: Store, run: RunId, listed: seq<AttemptId>, i: nat, named: seq<AttemptId>)
    requires i < |listed| && AttemptsSoFar(before, middle, run, listed, i, named)
    requires listed[i] in before.attempts && OrphanedAttempt(before.attempts[listed[i]], run)
    requires middle.attempts[listed[i]] == before.attempts[listed[i]] && listed[i] !in named
    ensures AttemptsSoFar(before, AttemptClosed(middle, listed[i], run), run, listed, i + 1, named + [listed[i]])
  {
    assert listed[..i + 1] == listed[..i] + [listed[i]];
    assert AttemptEvents(before, run, named + [listed[i]]) ==
      AttemptEvents(before, run, named) + [Event(run, AttemptClosedAs(listed[i], before.attempts[listed[i]].state))];
  }

  method CloseAttemptAt(db: Database, run: RunId, token: CancellationToken, ghost before: Store,
                       listed: seq<AttemptId>, i: nat, named0: seq<AttemptId>)
    returns (r: Result<seq<AttemptId>, RunError>)
    requires i < |listed| && AttemptsSoFar(before, db.store, run, listed, i, named0)
    requires forall k :: 0 <= k < |listed| ==> listed[k] in before.attempts
    requires forall k, l :: 0 <= k < l < |listed| ==> listed[k] != listed[l]
    modifies db, token
    ensures token.Never() <==> old(token.Never())
    ensures old(token.Never()) ==> r.Ok?
    ensures r.Ok? ==> AttemptsSoFar(before, db.store, run, listed, i + 1, r.value)
    ensures r.Err? ==> db.store == old(db.store)
  {
    SameAttempt(before, db.store, run, listed, i, named0);
    if OrphanedAttempt(db.store.attempts[listed[i]], run) {
      CloseAttempt(before, db.store, run, listed, i, named0);
      var _ :- db.FailAttempt(listed[i], run, token);
      return Ok(named0 + [listed[i]]);
    }
    SkipAttempt(before, db.store, run, listed, i, named0);
    return Ok(named0);
  }

  method CloseAttempts(db: Database, run: RunId, token: CancellationToken)
    returns (r: Result<seq<AttemptId>, RunError>)
    modifies db, token
    ensures token.Never() <==> old(token.Never())
    ensures old(token.Never()) ==> r.Ok?
    ensures r.Ok? ==> NamesAttempts(old(db.store), run, r.value)
    ensures r.Ok? ==> AttemptsRecovered(old(db.store), db.store, run, r.value)
    ensures r.Err? ==> exists named :: AttemptsCut(old(db.store), db.store, run, named)
  {
    ghost var before := db.store;
    var listed := KeysOf(db.store.attempts, (attempt: Attempt) => attempt.runId == run);
    var named: seq<AttemptId> := [];
    assert AttemptEvents(before, run, []) == [] && before.events + [] == before.events;
    for i := 0 to |listed|
      invariant AttemptsSoFar(before, db.store, run, listed, i, named)
      invariant token.Never() <==> old(token.Never())
    {
      CutAmongAttempts(before, db.store, run, listed, i, named);
      named :- CloseAttemptAt(db, run, token, before, listed, i, named);
    }
    AllAttempts(before, db.store, run, listed, named);
    return Ok(named);
  }

  lemma AllAttempts(before: Store, after: Store, run: RunId, listed: seq<AttemptId>, named: seq<AttemptId>)
    requires AttemptsSoFar(before, after, run, listed, |listed|, named)
    requires forall id :: id in before.attempts && before.attempts[id].runId == run ==> id in listed
    ensures NamesAttempts(before, run, named)
    ensures AttemptsRecovered(before, after, run, named)
  {
    assert listed[..|listed|] == listed;
    assert after.attempts == ClosedAttempts(before, run);
  }

  ghost predicate AttemptsRecovered(before: Store, after: Store, run: RunId, named: seq<AttemptId>)
    requires NamesAttempts(before, run, named)
  {
    after == before.(attempts := ClosedAttempts(before, run),
                     events := before.events + AttemptEvents(before, run, named))
  }

  ghost predicate TasksSoFar(before: Store, after: Store, run: RunId, listed: seq<TaskId>, i: nat,
                                named: seq<TaskId>)
    requires i <= |listed|
  {
    && after.runs == before.runs && after.attempts == before.attempts
    && after.tasks.Keys == before.tasks.Keys
    && (forall k :: 0 <= k < |named| ==> named[k] in before.tasks)
    && (forall id :: id in before.tasks ==>
          after.tasks[id] == if id in listed[..i] then ClosedTask(before.tasks[id], run) else before.tasks[id])
    && (forall id :: id in named <==>
          id in listed[..i] && id in before.tasks && OrphanedTask(before.tasks[id], run))
    && (forall k, l :: 0 <= k < l < |named| ==> named[k] != named[l])
    && after.events == before.events + TaskEvents(before, run, named)
  }

  lemma SameTask(before: Store, after: Store, run: RunId, listed: seq<TaskId>, i: nat, named: seq<TaskId>)
    requires i < |listed| && TasksSoFar(before, after, run, listed, i, named)
    requires forall k :: 0 <= k < |listed| ==> listed[k] in before.tasks
    requires forall k, l :: 0 <= k < l < |listed| ==> listed[k] != listed[l]
    ensures listed[i] in after.tasks && after.tasks[listed[i]] == before.tasks[listed[i]]
    ensures listed[i] !in named
  {
    assert listed[i] !in listed[..i];
  }

  lemma SkipTask(before: Store, after: Store, run: RunId, listed: seq<TaskId>, i: nat, named: seq<TaskId>)
    requires i < |listed| && TasksSoFar(before, after, run, listed, i, named)
    requires listed[i] in before.tasks && !OrphanedTask(before.tasks[listed[i]], run)
    ensures TasksSoFar(before, after, run, listed, i + 1, named)
  {
    assert listed[..i + 1] == listed[..i] + [listed[i]];
  }

  lemma CloseTask(before: Store, middle: Store, run: RunId, listed: seq<TaskId>, i: nat, named: seq<TaskId>)
    requires i < |listed| && TasksSoFar(before, middle, run, listed, i, named)
    requires listed[i] in before.tasks && OrphanedTask(before.tasks[listed[i]], run)
    requires middle.tasks[listed[i]] == before.tasks[listed[i]] && listed[i] !in named
    ensures TasksSoFar(before, TaskClosed(middle, listed[i], run), run, listed, i + 1, named + [listed[i]])
  {
    assert listed[..i + 1] == listed[..i] + [listed[i]];
    assert TaskEvents(before, run, named + [listed[i]]) ==
      TaskEvents(before, run, named) + [Event(run, TaskClosedAs(listed[i], TaskState.Running))];
  }

  method CloseTaskAt(db: Database, run: RunId, token: CancellationToken, ghost before: Store,
                       listed: seq<TaskId>, i: nat, named0: seq<TaskId>)
    returns (r: Result<seq<TaskId>, RunError>)
    requires i < |listed| && TasksSoFar(before, db.store, run, listed, i, named0)
    requires forall k :: 0 <= k < |listed| ==> listed[k] in before.tasks
    requires forall k, l :: 0 <= k < l < |listed| ==> listed[k] != listed[l]
    modifies db, token
    ensures token.Never() <==> old(token.Never())
    ensures old(token.Never()) ==> r.Ok?
    ensures r.Ok? ==> TasksSoFar(before, db.store, run, listed, i + 1, r.value)
    ensures r.Err? ==> db.store == old(db.store)
  {
    SameTask(before, db.store, run, listed, i, named0);
    if OrphanedTask(db.store.tasks[listed[i]], run) {
      CloseTask(before, db.store, run, listed, i, named0);
      var _ :- db.FailTask(listed[i], run, token);
      return Ok(named0 + [listed[i]]);
    }
    SkipTask(before, db.store, run, listed, i, named0);
    return Ok(named0);
  }

  method CloseTasks(db: Database, run: RunId, token: CancellationToken)
    returns (r: Result<seq<TaskId>, RunError>)
    modifies db, token
    ensures token.Never() <==> old(token.Never())
    ensures old(token.Never()) ==> r.Ok?
    ensures r.Ok? ==> NamesTasks(old(db.store), run, r.value)
    ensures r.Ok? ==> TasksRecovered(old(db.store), db.store, run, r.value)
    ensures r.Err? ==> exists named :: TasksCut(old(db.store), db.store, run, named)
  {
    ghost var before := db.store;
    var listed := KeysOf(db.store.tasks, (task: RunTask) => task.runId == run);
    var named: seq<TaskId> := [];
    assert TaskEvents(before, run, []) == [] && before.events + [] == before.events;
    for i := 0 to |listed|
      invariant TasksSoFar(before, db.store, run, listed, i, named)
      invariant token.Never() <==> old(token.Never())
    {
      CutAmongTasks(before, db.store, run, listed, i, named);
      named :- CloseTaskAt(db, run, token, before, listed, i, named);
    }
    AllTasks(before, db.store, run, listed, named);
    return Ok(named);
  }

  lemma AllTasks(before: Store, after: Store, run: RunId, listed: seq<TaskId>, named: seq<TaskId>)
    requires TasksSoFar(before, after, run, listed, |listed|, named)
    requires forall id :: id in before.tasks && before.tasks[id].runId == run ==> id in listed
    ensures NamesTasks(before, run, named)
    ensures TasksRecovered(before, after, run, named)
  {
    assert listed[..|listed|] == listed;
    assert after.tasks == ClosedTasks(before, run);
  }

  ghost predicate TasksRecovered(before: Store, after: Store, run: RunId, named: seq<TaskId>)
    requires NamesTasks(before, run, named)
  {
    after == before.(tasks := ClosedTasks(before, run), events := before.events + TaskEvents(before, run, named))
  }

  // --- where it can be cut short ---------------------------------------------------------------

  ghost predicate SomeAttempts(s: Store, run: RunId, ids: seq<AttemptId>) {
    && (forall k :: 0 <= k < |ids| ==> ids[k] in s.attempts && OrphanedAttempt(s.attempts[ids[k]], run))
    && (forall k, l :: 0 <= k < l < |ids| ==> ids[k] != ids[l])
  }

  ghost predicate SomeTasks(s: Store, run: RunId, ids: seq<TaskId>) {
    && (forall k :: 0 <= k < |ids| ==> ids[k] in s.tasks && OrphanedTask(s.tasks[ids[k]], run))
    && (forall k, l :: 0 <= k < l < |ids| ==> ids[k] != ids[l])
  }

  ghost function TheseAttempts(s: Store, run: RunId, ids: seq<AttemptId>): map<AttemptId, Attempt> {
    map id | id in s.attempts :: if id in ids then ClosedAttempt(s.attempts[id], run) else s.attempts[id]
  }

  ghost function TheseTasks(s: Store, run: RunId, ids: seq<TaskId>): map<TaskId, RunTask> {
    map id | id in s.tasks :: if id in ids then ClosedTask(s.tasks[id], run) else s.tasks[id]
  }

  /** Exactly these attempts are closed, with their events. */
  ghost predicate AttemptsCut(before: Store, after: Store, run: RunId, attempts: seq<AttemptId>) {
    && SomeAttempts(before, run, attempts)
    && after == before.(attempts := TheseAttempts(before, run, attempts),
                        events := before.events + AttemptEvents(before, run, attempts))
  }

  ghost predicate TasksCut(before: Store, after: Store, run: RunId, tasks: seq<TaskId>) {
    && SomeTasks(before, run, tasks)
    && after == before.(tasks := TheseTasks(before, run, tasks),
                        events := before.events + TaskEvents(before, run, tasks))
  }

  /** Some orphaned attempts are closed; or all of them are, and some tasks; the run has not moved. */
  ghost predicate PartlyRecovered(before: Store, after: Store, run: RunId) {
    || (exists attempts :: AttemptsCut(before, after, run, attempts))
    || (exists middle, attempts, tasks :: CutInTasks(before, middle, after, run, attempts, tasks))
  }

  ghost predicate CutInTasks(before: Store, middle: Store, after: Store, run: RunId,
                             attempts: seq<AttemptId>, tasks: seq<TaskId>) {
    && NamesAttempts(before, run, attempts) && AttemptsRecovered(before, middle, run, attempts)
    && TasksCut(middle, after, run, tasks)
  }

  lemma CutAmongAttempts(before: Store, after: Store, run: RunId, listed: seq<AttemptId>, i: nat,
                         named: seq<AttemptId>)
    requires i <= |listed| && AttemptsSoFar(before, after, run, listed, i, named)
    ensures AttemptsCut(before, after, run, named)
  {
    assert forall k :: 0 <= k < |named| ==> named[k] in named;
    assert after.attempts == TheseAttempts(before, run, named);
  }

  lemma CutAmongTasks(before: Store, after: Store, run: RunId, listed: seq<TaskId>, i: nat, named: seq<TaskId>)
    requires i <= |listed| && TasksSoFar(before, after, run, listed, i, named)
    ensures TasksCut(before, after, run, named)
  {
    assert forall k :: 0 <= k < |named| ==> named[k] in named;
    assert after.tasks == TheseTasks(before, run, named);
  }

  /** After the last task, and before the run is blocked. */
  lemma CutAfterTasks(before: Store, middle: Store, closed: Store, run: RunId, attempts: seq<AttemptId>,
                      tasks: seq<TaskId>)
    requires NamesAttempts(before, run, attempts) && AttemptsRecovered(before, middle, run, attempts)
    requires NamesTasks(middle, run, tasks) && TasksRecovered(middle, closed, run, tasks)
    ensures CutInTasks(before, middle, closed, run, attempts, tasks)
  {
    assert forall k :: 0 <= k < |tasks| ==> tasks[k] in tasks;
    assert closed.tasks == TheseTasks(middle, run, tasks);
  }

  // --- the whole recovery -------------------------------------------------------------------------

  /** Everything is recovered, and the report and the log say exactly what was. */
  ghost predicate Recovered(before: Store, after: Store, run: RunId, report: Report) {
    && Names(before, run, report)
    && after.attempts == ClosedAttempts(before, run)
    && after.tasks == ClosedTasks(before, run)
    && after.runs == BlockedRuns(before, run)
    && after.events == before.events + EventsOf(before, run, report)
    && run in after.runs && report.run == after.runs[run]
  }

  method Recover(db: Database, run: RunId, token: CancellationToken) returns (r: Result<Option<Report>, RunError>)
    requires db.Valid()
    modifies db, token
    ensures r.Ok? ==> (r.value.None? <==> run !in old(db.store).runs)
    ensures r.Ok? && r.value.None? ==> db.store == old(db.store)
    ensures r.Ok? && r.value.Some? ==> Recovered(old(db.store), db.store, run, r.value.value)
    ensures r.Err? ==> PartlyRecovered(old(db.store), db.store, run)
    ensures old(token.Never()) ==> r.Ok?
  {
    if run !in db.store.runs {
      return Ok(None);
    }
    ghost var before := db.store;
    var found := db.store.runs[run];
    var attempts :- CloseAttempts(db, run, token);
    ghost var middle := db.store;
    var tasks := CloseTasks(db, run, token);
    if tasks.Err? {
      ghost var named :| TasksCut(middle, db.store, run, named);
      assert CutInTasks(before, middle, db.store, run, attempts, named);
      return Err(tasks.error);
    }
    ghost var closed := db.store;
    CutAfterTasks(before, middle, closed, run, attempts, tasks.value);
    NoneMeansNone(before, run, tasks.value);
    var report := Report(found, tasks.value, attempts);
    if |tasks.value| > 0 && found.state == RunState.Running {
      var blocked := db.BlockRun(found, token);
      if blocked.Err? {
        return Err(blocked.error);
      }
      report := report.(run := blocked.value);
    }
    LogOf(before, middle, closed, db.store, run, report);
    return Ok(Some(report));
  }

  lemma NoneMeansNone(s: Store, run: RunId, tasks: seq<TaskId>)
    requires NamesTasks(s, run, tasks)
    ensures |tasks| > 0 <==> HasOrphanedTask(s, run)
  {
    if |tasks| > 0 {
      assert tasks[0] in s.tasks && tasks[0] in tasks;
    }
  }

  lemma LogOf(before: Store, middle: Store, closed: Store, after: Store, run: RunId, report: Report)
    requires run in before.runs && before.runs[run].id == run
    requires NamesAttempts(before, run, report.orphanedAttempts)
    requires AttemptsRecovered(before, middle, run, report.orphanedAttempts)
    requires NamesTasks(middle, run, report.orphanedTasks)
    requires TasksRecovered(middle, closed, run, report.orphanedTasks)
    requires after == if IsBlocked(before, run) then RunMoved(closed, before.runs[run]) else closed
    requires report.run ==
      if IsBlocked(before, run) then before.runs[run].(state := RunState.Blocked) else before.runs[run]
    ensures Recovered(before, after, run, report)
  {
    assert ClosedTasks(middle, run) == ClosedTasks(before, run);
    assert TaskEvents(middle, run, report.orphanedTasks) == TaskEvents(before, run, report.orphanedTasks);
    var last: seq<Event> := if IsBlocked(before, run) then [Event(run, RunBlocked(RunState.Running))] else [];
    assert after.events == closed.events + last;
    assert after.events == before.events + EventsOf(before, run, report);
  }

  // --- what recovery is for ----------------------------------------------------------------------------

  /**
   Nothing is left that looks active, every change was a legal move, and nobody else was touched. What was
   closed has failed, and a task that was closed can be retried.
   */
  lemma RecoveryCloses(before: Store, after: Store, run: RunId, report: Report)
    requires Recovered(before, after, run, report)
    ensures forall id :: id in after.attempts && after.attempts[id].runId == run ==>
      after.attempts[id].state != AttemptState.Starting && after.attempts[id].state != AttemptState.Running
    ensures forall id :: id in after.tasks && after.tasks[id].runId == run ==>
      after.tasks[id].state != TaskState.Running
    ensures forall id :: id in before.attempts && after.attempts[id] != before.attempts[id] ==>
      before.attempts[id].runId == run && CanMoveAttempt(before.attempts[id].state, after.attempts[id].state) &&
      after.attempts[id] == before.attempts[id].(state := AttemptState.Failed)
    ensures forall id :: id in before.tasks && after.tasks[id] != before.tasks[id] ==>
      before.tasks[id].runId == run && CanMoveTask(before.tasks[id].state, after.tasks[id].state) &&
      CanMoveTask(after.tasks[id].state, TaskState.Ready)
    ensures forall id :: id in before.runs && after.runs[id] != before.runs[id] ==>
      id == run && CanMoveRun(before.runs[id].state, after.runs[id].state)
  {
  }

  /** Every change is in the log, with the state the row had before. */
  lemma EveryChangeIsLogged(before: Store, after: Store, run: RunId, report: Report)
    requires Recovered(before, after, run, report)
    ensures forall id :: id in before.attempts && after.attempts[id] != before.attempts[id] ==>
      Event(run, AttemptClosedAs(id, before.attempts[id].state)) in after.events
    ensures forall id :: id in before.tasks && after.tasks[id] != before.tasks[id] ==>
      Event(run, TaskClosedAs(id, before.tasks[id].state)) in after.events
    ensures forall id :: id in before.runs && after.runs[id] != before.runs[id] ==>
      Event(id, RunBlocked(before.runs[id].state)) in after.events
  {
    var attempts := AttemptEvents(before, run, report.orphanedAttempts);
    var tasks := TaskEvents(before, run, report.orphanedTasks);
    forall id | id in before.attempts && after.attempts[id] != before.attempts[id]
      ensures Event(run, AttemptClosedAs(id, before.attempts[id].state)) in after.events
    {
      var k :| 0 <= k < |report.orphanedAttempts| && report.orphanedAttempts[k] == id;
      assert attempts[k] in attempts;
    }
    forall id | id in before.tasks && after.tasks[id] != before.tasks[id]
      ensures Event(run, TaskClosedAs(id, before.tasks[id].state)) in after.events
    {
      var k :| 0 <= k < |report.orphanedTasks| && report.orphanedTasks[k] == id;
      assert tasks[k] in tasks;
    }
  }

  lemma NothingNamed(s: Store, run: RunId, report: Report)
    requires Names(s, run, report)
    requires forall id :: id in s.attempts ==> !OrphanedAttempt(s.attempts[id], run)
    requires forall id :: id in s.tasks ==> !OrphanedTask(s.tasks[id], run)
    ensures report.orphanedTasks == [] && report.orphanedAttempts == []
  {
    HeadIsMember(report.orphanedTasks);
    HeadIsMember(report.orphanedAttempts);
  }

  lemma HeadIsMember<T>(s: seq<T>)
    ensures s != [] ==> s[0] in s
  {
  }

  /** Recovering what has been recovered changes, logs and reports nothing. */
  lemma RecoveryIsIdempotent(before: Store, once: Store, twice: Store, run: RunId, first: Report, second: Report)
    requires Recovered(before, once, run, first) && Recovered(once, twice, run, second)
    ensures twice == once && second.orphanedTasks == [] && second.orphanedAttempts == []
  {
    RecoveryCloses(before, once, run, first);
    NothingNamed(once, run, second);
    assert !HasOrphanedTask(once, run);
    assert ClosedAttempts(once, run) == once.attempts && ClosedTasks(once, run) == once.tasks;
    assert twice.events == once.events;
  }

  /**
   Recovery that was cut short and is run again closes the same rows. It comes to the same state of
   the run, too, unless the run had to be blocked and all its running tasks were closed already: the
   second time there is nothing left to tell that from.
   */
  lemma ResumedRecoveryIff(before: Store, cut: Store, after: Store, resumed: Store, run: RunId,
                           first: Report, second: Report)
    requires Recovered(before, after, run, first)
    requires PartlyRecovered(before, cut, run) && Recovered(cut, resumed, run, second)
    ensures resumed.attempts == after.attempts && resumed.tasks == after.tasks
    ensures resumed.runs == after.runs <==> !(IsBlocked(before, run) && !HasOrphanedTask(cut, run))
  {
    CutKeeps(before, cut, run);
    ResumedRows(before, cut, run);
    if IsBlocked(before, run) {
      assert after.runs[run].state == RunState.Blocked;
    }
  }

  /** The run is as it was, and every row as it was or closed. */
  ghost predicate KeptOrClosed(before: Store, cut: Store, run: RunId) {
    && cut.runs == before.runs
    && cut.attempts.Keys == before.attempts.Keys && cut.tasks.Keys == before.tasks.Keys
    && (forall id :: id in before.attempts ==>
          cut.attempts[id] == before.attempts[id] || cut.attempts[id] == ClosedAttempt(before.attempts[id], run))
    && (forall id :: id in before.tasks ==>
          cut.tasks[id] == before.tasks[id] || cut.tasks[id] == ClosedTask(before.tasks[id], run))
  }

  lemma CutKeeps(before: Store, cut: Store, run: RunId)
    requires PartlyRecovered(before, cut, run)
    ensures KeptOrClosed(before, cut, run)
  {
    if attempts :| AttemptsCut(before, cut, run, attempts) {
    } else {
      var middle, attempts, tasks :| CutInTasks(before, middle, cut, run, attempts, tasks);
    }
  }

  lemma ResumedRows(before: Store, cut: Store, run: RunId)
    requires KeptOrClosed(before, cut, run)
    ensures ClosedAttempts(cut, run) == ClosedAttempts(before, run) && ClosedTasks(cut, run) == ClosedTasks(before, run)
    ensures HasOrphanedTask(cut, run) ==> HasOrphanedTask(before, run)
  {
    if id :| id in cut.tasks && OrphanedTask(cut.tasks[id], run) {
      assert OrphanedTask(before.tasks[id], run);
    }
  }

  /**
   Every run that is to be blocked can be cut just before: all its rows are closed, and recovering it
   again finds nothing that would block it.
   */
  lemma CutBeforeBlocking(before: Store, after: Store, run: RunId, report: Report) returns (cut: Store)
    requires Recovered(before, after, run, report) && IsBlocked(before, run)
    ensures PartlyRecovered(before, cut, run) && cut.attempts == after.attempts && cut.tasks == after.tasks
    ensures forall resumed, second :: Recovered(cut, resumed, run, second) ==>
      run in resumed.runs && resumed.runs[run].state == RunState.Running
  {
    var attempts, tasks := report.orphanedAttempts, report.orphanedTasks;
    var middle := before.(attempts := ClosedAttempts(before, run),
                          events := before.events + AttemptEvents(before, run, attempts));
    assert TaskEvents(middle, run, tasks) == TaskEvents(before, run, tasks);
    cut := middle.(tasks := ClosedTasks(middle, run), events := middle.events + TaskEvents(middle, run, tasks));
    CutAfterTasks(before, middle, cut, run, attempts, tasks);
    assert ClosedTasks(middle, run) == ClosedTasks(before, run);
    assert !HasOrphanedTask(cut, run);
  }
}
