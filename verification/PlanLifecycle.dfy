/**
 Drawing, locking and starting plans, one call at a time (PlanService.cs, RunService.StartAsync,
 PlanRepository.SaveAsync). Any call may be cut short wherever it waits; what it can leave behind is
 part of its contract.
 */
module PlanLifecycle {
  import opened Wrappers
  import opened Domain
  import opened PlanRows
  import WriteScopes
  import opened RunStore
  import opened StateMachine
  import TaskGraph
  import Graph

  datatype PlanError =
    | NoGoal
    | NoPlan
    | InvalidGraph
    | NotDraft
    | OverlappingScopes
    | NotLocked
    | MustNamePlan
    | Immutable
    | Canceled
    | Unreadable

  type Plans = map<PlanId, Plan>

  // --- the store ------------------------------------------------------------------------------

  /** Whether the store takes this write; a locked plan may only be consumed, or written unchanged. */
  predicate Writable(plans: Plans, plan: Plan) {
    || plan.id !in plans
    || plans[plan.id].state == PlanState.Draft
    || (plans[plan.id].state == PlanState.Locked && plan.state == PlanState.Consumed)
    || plans[plan.id] == plan
  }

  /** Rows by id, each as written by Save. */
  class PlanRepository {
    var rows: map<PlanId, PlanRow>
    ghost var plans: Plans

    ghost predicate Valid()
      reads this
    {
      && rows.Keys == plans.Keys
      && forall id :: id in plans ==> rows[id] == RowOf(plans[id]) && plans[id].id == id
    }

    constructor ()
      ensures Valid() && plans == map[]
    {
      rows, plans := map[], map[];
    }

    method Find(id: PlanId, token: CancellationToken) returns (r: Result<Option<Plan>, PlanError>)
      requires Valid()
      modifies token
      ensures r.Ok? ==> r.value == if id in plans then Some(plans[id]) else None
      ensures r.Err? ==> r.error == Canceled
      ensures token.Never() <==> old(token.Never())
      ensures old(token.Never()) ==> r.Ok?
    {
      var requested := token.Poll();
      if requested {
        return Err(Canceled);
      }
      if id !in rows {
        return Ok(None);
      }
      PlanReadsBack(plans[id]);
      var plan := PlanOf(rows[id]);
      return Ok(Some(plan.value));
    }

    /** Takes exactly the writes Writable allows, and leaves the plans as they were otherwise. */
    method Save(plan: Plan, token: CancellationToken) returns (r: Result<(), PlanError>)
      requires Valid()
      modifies this, token
      ensures Valid()
      ensures r.Ok? ==> Writable(old(plans), plan) && plans == old(plans)[plan.id := plan]
      ensures r.Err? ==> plans == old(plans)
      ensures r.Err? ==> r.error == Canceled || (r.error == Immutable && !Writable(old(plans), plan))
      ensures token.Never() <==> old(token.Never())
      ensures old(token.Never()) ==> (r.Ok? <==> Writable(old(plans), plan))
    {
      var existing :- Find(plan.id, token);
      if existing.Some? && existing.value.state != PlanState.Draft {
        var isBeingConsumed := existing.value.state == PlanState.Locked && plan.state == PlanState.Consumed;
        if !isBeingConsumed {
          RowsDifferIff(existing.value, plan);
          if RowOf(existing.value) != RowOf(plan) {
            return Err(Immutable);
          }
          assert plans[plan.id := plan] == plans;
          return Ok(());
        }
      }
      var requested := token.Poll();
      if requested {
        return Err(Canceled);
      }
      rows := rows[plan.id := RowOf(plan)];
      plans := plans[plan.id := plan];
      return Ok(());
    }
  }

  // --- the services -----------------------------------------------------------------------------

  /** An engine set going in the background, for this run and on this plan. */
  datatype Launch = Launch(run: RunId, plan: Plan)

  datatype State = State(plans: Plans, runs: map<RunId, Run>, launches: seq<Launch>)

  /** The plans, the rows of runs, and the engines started since. */
  class Services {
    const repository: PlanRepository
    var runs: map<RunId, Run>
    var launches: seq<Launch>

    ghost predicate Valid()
      reads this, repository
    {
      repository.Valid()
    }

    ghost function Now(): State
      reads this, repository
    {
      State(repository.plans, runs, launches)
    }

    constructor (repository: PlanRepository)
      requires repository.Valid()
      ensures Valid() && this.repository == repository && Now() == State(repository.plans, map[], [])
    {
      this.repository := repository;
      runs, launches := map[], [];
    }

    /** Stores the plan exactly when nothing dangles, nothing is on a cycle and no id repeats. */
    method CreatePlan(drawn: Option<Plan>, token: CancellationToken) returns (r: Result<Plan, PlanError>)
      requires Valid()
      requires drawn.Some? ==> drawn.value.id !in repository.plans && drawn.value.state == PlanState.Draft
      modifies repository, token
      ensures Valid()
      ensures r.Ok? ==> drawn == Some(r.value) && ValidGraph(r.value.tasks)
      ensures Now() == if r.Ok? then WithPlan(old(Now()), r.value) else old(Now())
      ensures old(token.Never()) && drawn.Some? && ValidGraph(drawn.value.tasks) ==> r.Ok?
      ensures r.Err? && drawn.Some? && !ValidGraph(drawn.value.tasks) ==> r.error == InvalidGraph
    {
      if drawn.None? {
        return Err(NoGoal);
      }
      var plan := drawn.value;
      var errors := TaskGraph.Validate(plan.tasks);
      if errors.Err? || errors.value != [] {
        return Err(InvalidGraph);
      }
      var _ :- repository.Save(plan, token);
      return Ok(plan);
    }

    /** Freezes a draft whose unordered tasks write to different places. */
    method LockPlan(id: PlanId, token: CancellationToken) returns (r: Result<Plan, PlanError>)
      requires Valid()
      modifies repository, token
      ensures Valid()
      ensures r.Ok? ==> Lockable(old(repository.plans), id)
      ensures r.Ok? ==> r.value == old(repository.plans)[id].(state := PlanState.Locked)
      ensures Now() == if r.Ok? then WithPlan(old(Now()), r.value) else old(Now())
      ensures old(token.Never()) ==> (r.Ok? <==> Lockable(old(repository.plans), id))
    {
      var found :- repository.Find(id, token);
      if found.None? {
        return Err(NoPlan);
      }
      var plan := found.value;
      if plan.state != PlanState.Draft {
        return Err(NotDraft);
      }
      var conflicts := WriteScopes.FindWriteScopeConflicts(plan.tasks);
      if |conflicts| > 0 {
        return Err(OverlappingScopes);
      }
      var locked := plan.(state := PlanState.Locked);
      var _ :- repository.Save(locked, token);
      return Ok(locked);
    }

    method LockedPlanFor(request: Option<PlanId>, token: CancellationToken) returns (r: Result<Plan, PlanError>)
      requires Valid()
      modifies token
      ensures r.Ok? ==> request.Some? && Startable(repository.plans, request.value)
      ensures r.Ok? ==> r.value == repository.plans[request.value]
      ensures token.Never() <==> old(token.Never())
      ensures old(token.Never()) ==> (r.Ok? <==> request.Some? && Startable(repository.plans, request.value))
    {
      if request.None? {
        return Err(MustNamePlan);
      }
      var found :- repository.Find(request.value, token);
      if found.None? {
        return Err(NoPlan);
      }
      if found.value.state != PlanState.Locked {
        return Err(NotLocked);
      }
      return Ok(found.value);
    }

    /** Stores a run and spends the plan; cut short between the two, it leaves the run alone. */
    method StartRun(request: Option<PlanId>, id: RunId, now: Moment, token: CancellationToken) returns (r: Result<Run,
                    PlanError>)
      requires Valid() && id !in runs
      modifies this, repository, token
      ensures Valid()
      ensures r.Ok? ==> request.Some? && Startable(old(repository.plans), request.value)
      ensures r.Ok? ==> var plan := old(repository.plans)[request.value];
        && Describes(r.value, plan) && r.value.id == id && CanMoveRun(r.value.state, RunState.Planning)
        && r.value == RunFor(plan, id, now) && Now() == Launched(Spent(Orphaned(old(Now()), r.value), plan), plan, id)
      ensures r.Err? && Now() != old(Now()) ==>
        && request.Some? && Startable(old(repository.plans), request.value)
        && Now() == Orphaned(old(Now()), RunFor(old(repository.plans)[request.value], id, now))
      ensures old(token.Never()) ==> (r.Ok? <==> request.Some? && Startable(old(repository.plans), request.value))
    {
      var plan :- LockedPlanFor(request, token);
      var run := RunFor(plan, id, now);
      var requested := token.Poll();
      if requested {
        return Err(Canceled);
      }
      runs := runs[id := run];
      var _ :- repository.Save(plan.(state := PlanState.Consumed), token);
      launches := launches + [Launch(id, plan)];
      return Ok(run);
    }
  }

  // --- what the calls do to the stored state ---------------------------------------------------------

  ghost predicate ValidGraph(tasks: seq<PlanTask>) {
    UniqueIds(tasks) && Graph.Closed(TaskGraph.GraphOf(tasks)) && Graph.Acyclic(TaskGraph.GraphOf(tasks))
  }

  ghost predicate Lockable(plans: Plans, id: PlanId) {
    id in plans && plans[id].state == PlanState.Draft && WriteScopes.NoConflicts(plans[id].tasks)
  }

  ghost predicate Startable(plans: Plans, id: PlanId) {
    id in plans && plans[id].state == PlanState.Locked
  }

  /** What a run takes over from its plan. */
  predicate Describes(run: Run, plan: Plan) {
    && run.projectId == plan.projectId && run.autonomy == plan.autonomy
    && run.goalId == plan.goalId && run.goalRevision == plan.goalRevision
  }

  function RunFor(plan: Plan, id: RunId, now: Moment): Run {
    Run(id, plan.projectId, plan.goalId, plan.goalRevision, RunState.Created, plan.autonomy, now)
  }

  function WithPlan(s: State, plan: Plan): State {
    s.(plans := s.plans[plan.id := plan])
  }

  /** The run is stored and the plan is not yet spent. */
  function Orphaned(s: State, run: Run): State {
    s.(runs := s.runs[run.id := run])
  }

  function Spent(s: State, plan: Plan): State {
    WithPlan(s, plan.(state := PlanState.Consumed))
  }

  function Launched(s: State, plan: Plan, run: RunId): State {
    s.(launches := s.launches + [Launch(run, plan)])
  }
}
