/** Which state changes are legal (src/AtlasFlow.Domain/Execution/StateMachine.cs). */
module StateMachine {
  import opened Domain

  function RunMoves(from: RunState): set<RunState> {
    match from
    case Created => {RunState.Planning, RunState.Cancelled}
    case Planning => {RunState.Ready, RunState.Failed, RunState.Cancelled}
    case Ready => {RunState.Running, RunState.Cancelled}
    case Running => {RunState.Verifying, RunState.Blocked, RunState.Failed, RunState.Cancelled}
    case Verifying => {RunState.Reviewing, RunState.Failed}
    case Reviewing => {RunState.Completed, RunState.Failed}
    case _ => {}
  }

  function TaskMoves(from: TaskState): set<TaskState> {
    match from
    case Planned => {TaskState.Ready, TaskState.Blocked, TaskState.Cancelled}
    case Blocked => {TaskState.Ready, TaskState.Cancelled}
    case Ready => {TaskState.Running, TaskState.Cancelled}
    case Running => {TaskState.Succeeded, TaskState.Failed, TaskState.Cancelled}
    case Succeeded => {TaskState.Superseded}
    case Failed => {TaskState.Ready, TaskState.Cancelled}
    case _ => {}
  }

  function AttemptMoves(from: AttemptState): set<AttemptState> {
    match from
    case Created => {AttemptState.Starting, AttemptState.Cancelled}
    case Starting => {AttemptState.Running, AttemptState.Failed, AttemptState.Cancelled}
    case Running => {AttemptState.Completed, AttemptState.Failed, AttemptState.Cancelled}
    case _ => {}
  }

  predicate CanMoveRun(from: RunState, to: RunState) { to in RunMoves(from) }

  predicate CanMoveTask(from: TaskState, to: TaskState) { to in TaskMoves(from) }

  predicate CanMoveAttempt(from: AttemptState, to: AttemptState) { to in AttemptMoves(from) }

  /** The states no move leads out of, except that Blocked has none either. */
  predicate RunIsTerminal(state: RunState) {
    state == RunState.Completed || state == RunState.Cancelled || state == RunState.Failed
  }

  /** The states that do not hold back a verdict; Failed is not one, as it can be retried. */
  predicate TaskIsTerminal(state: TaskState) {
    state == TaskState.Succeeded || state == TaskState.Cancelled || state == TaskState.Superseded
  }

  // --- the tables, read from where a move leads ---------------------------------------------------

  /**
   A run never comes back to where it was; it can be cancelled until it verifies; and it moves on unless it
   has ended or is blocked.
   */
  lemma RunsComeTo(from: RunState, to: RunState)
    ensures CanMoveRun(from, to) ==> RunRank(from) < RunRank(to)
    ensures CanMoveRun(from, RunState.Cancelled) <==> RunRank(from) <= RunRank(RunState.Running)
    ensures CanMoveRun(from, RunState.Failed) <==>
      from in {RunState.Planning, RunState.Running, RunState.Verifying, RunState.Reviewing}
    ensures CanMoveRun(from, RunState.Blocked) <==> from == RunState.Running
    ensures RunMoves(from) == {} <==> RunIsTerminal(from) || from == RunState.Blocked
    ensures to !in {RunState.Blocked, RunState.Cancelled, RunState.Failed} ==>
      (CanMoveRun(from, to) <==> RunRank(to) == RunRank(from) + 1)
  {
  }

  /** How far a run has come. */
  function RunRank(state: RunState): nat {
    match state
    case Created => 0
    case Planning => 1
    case Ready => 2
    case Running => 3
    case Verifying => 4
    case Reviewing => 5
    case _ => 6
  }

  /**
   Cancelling reaches every task that is not over; a task runs only once it is ready, ends only by running,
   and is made ready again only after it failed.
   */
  lemma TasksComeTo(from: TaskState)
    ensures CanMoveTask(from, TaskState.Cancelled) <==> !TaskIsTerminal(from)
    ensures CanMoveTask(from, TaskState.Ready) <==> from in {TaskState.Planned, TaskState.Blocked, TaskState.Failed}
    ensures CanMoveTask(from, TaskState.Running) <==> from == TaskState.Ready
    ensures CanMoveTask(from, TaskState.Succeeded) <==> from == TaskState.Running
    ensures CanMoveTask(from, TaskState.Failed) <==> from == TaskState.Running
    ensures CanMoveTask(from, TaskState.Blocked) <==> from == TaskState.Planned
    ensures CanMoveTask(from, TaskState.Superseded) <==> from == TaskState.Succeeded
    ensures !CanMoveTask(from, TaskState.Planned)
  {
  }

  /** An attempt that has ended stays so; until then it can be cancelled, and once it has started it can fail. */
  lemma AttemptsComeTo(from: AttemptState)
    ensures var over := from in {AttemptState.Completed, AttemptState.Failed, AttemptState.Cancelled};
      (AttemptMoves(from) == {} <==> over) && (CanMoveAttempt(from, AttemptState.Cancelled) <==> !over)
    ensures CanMoveAttempt(from, AttemptState.Failed) <==> from in {AttemptState.Starting, AttemptState.Running}
    ensures CanMoveAttempt(from, AttemptState.Completed) <==> from == AttemptState.Running
    ensures CanMoveAttempt(from, AttemptState.Running) <==> from == AttemptState.Starting
    ensures CanMoveAttempt(from, AttemptState.Starting) <==> from == AttemptState.Created
    ensures !CanMoveAttempt(from, AttemptState.Created)
  {
  }
}
