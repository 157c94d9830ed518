/** Plans, runs, tasks and attempts, as the rest of the kernel passes them around. */
module Domain {

  datatype TaskId = TaskId(value: string)

  datatype RunId = RunId(value: string)

  datatype PlanId = PlanId(value: string)

  datatype GoalId = GoalId(value: string)

  /** A path relative to the open project root. */
  datatype ProjectPath = ProjectPath(value: string)

  /** Timestamps are compared and copied, never computed with. */
  type Moment = int

  datatype AutonomyLevel = Supervised | Agentic

  datatype RiskLevel = Low | Medium | High

  datatype GateKind = Build | Tests | Review | Documentation

  // --- planning ------------------------------------------------------------------

  datatype PlanState = Draft | Locked | Consumed

  datatype PlanTask = PlanTask(
    id: TaskId,
    objective: string,
    risk: RiskLevel,
    parallelizable: bool,
    dependencies: seq<TaskId>,
    writeScope: seq<ProjectPath>,
    gates: seq<GateKind>,
    capabilities: seq<string>
  )

  datatype Plan = Plan(
    id: PlanId,
    projectId: string,
    goalId: GoalId,
    goalRevision: string,
    state: PlanState,
    autonomy: AutonomyLevel,
    runner: string,
    integrationTarget: string,
    createdAt: Moment,
    tasks: seq<PlanTask>
  )

  // --- execution -----------------------------------------------------------------

  datatype RunState =
    | Created | Planning | Ready | Running | Verifying
    | Reviewing | Completed | Blocked | Cancelled | Failed

  datatype TaskState =
    | Planned | Ready | Running | Succeeded
    | Blocked | Failed | Cancelled | Superseded

  datatype AttemptState = Created | Starting | Running | Completed | Failed | Cancelled

  datatype Run = Run(
    id: RunId,
    projectId: string,
    goalId: GoalId,
    goalRevision: string,
    state: RunState,
    autonomy: AutonomyLevel,
    createdAt: Moment
  )

  datatype RunTask = RunTask(
    id: TaskId,
    runId: RunId,
    objective: string,
    role: string,
    risk: RiskLevel,
    writeScope: seq<ProjectPath>,
    state: TaskState,
    dependencies: seq<TaskId>,
    createdAt: Moment
  )

  ghost predicate UniqueIds(tasks: seq<PlanTask>) {
    forall i, j :: 0 <= i < j < |tasks| ==> tasks[i].id != tasks[j].id
  }
}
