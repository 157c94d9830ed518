/** What the conflict check at locking means for the rows an engine runs (RunEngine.Materialize). */
module RunScopes {
  import opened Domain
  import opened RunStore
  import opened RunEngine
  import opened Execution
  import Paths
  import WriteScopes
  import LockedPlans

  /** The rows of two nodes of the plan are running at this crash point. */
  ghost predicate BothRunning(tables: Tables, ids: seq<TaskId>, i: nat, j: nat) {
    && i < |ids| && j < |ids| && ids[i] in tables.tasks && ids[j] in tables.tasks
    && tables.tasks[ids[i]].state == TaskState.Running && tables.tasks[ids[j]].state == TaskState.Running
  }

  lemma DependencyIsOver(tables: Tables, tasks: seq<PlanTask>, ids: seq<TaskId>, i: nat, j: nat)
    requires UniqueIds(tasks) && FreshIds(ids, |tasks|) && PlanSafe(tables, tasks, ids, Rewriting(tasks, ids))
    requires i < |ids| && j < |ids| && ids[i] in tables.tasks && tables.tasks[ids[i]].state == TaskState.Running
    requires tasks[j].id in tasks[i].dependencies
    ensures ids[j] in tables.tasks && tables.tasks[ids[j]].state == TaskState.Succeeded
  {
    var k :| 0 <= k < |tasks[i].dependencies| && tasks[i].dependencies[k] == tasks[j].id;
    RewritingPairs(tasks, ids);
    assert NodeReleased(tables, tasks[i], Rewriting(tasks, ids));
  }

  lemma RunningAreConcurrent(tables: Tables, tasks: seq<PlanTask>, ids: seq<TaskId>, i: nat, j: nat)
    requires UniqueIds(tasks) && FreshIds(ids, |tasks|) && PlanSafe(tables, tasks, ids, Rewriting(tasks, ids))
    requires BothRunning(tables, ids, i, j)
    ensures tasks[j].id !in tasks[i].dependencies
  {
    if tasks[j].id in tasks[i].dependencies {
      DependencyIsOver(tables, tasks, ids, i, j);
    }
  }

  /**
   Whatever order and parallelism the rows of a checked plan run with: at no crash point do two running rows
   own a common file, if the entries of the plan are straight; and otherwise only through entries whose
   spelling hides it.
   */
  lemma RunningRowsShareNoFile(root: seq<string>, history: seq<Tables>, start: nat, run: RunId, tasks: seq<PlanTask>,
                               ids: seq<TaskId>, k: nat, i: nat, j: nat)
    requires UniqueIds(tasks) && WriteScopes.NoConflicts(tasks) && FreshIds(ids, |tasks|)
    requires SafeSince(history, start, run, tasks, ids, Rewriting(tasks, ids)) && start <= k < |history|
    requires i < j && BothRunning(history[k], ids, i, j)
    ensures var a, b := history[k].tasks[ids[i]].writeScope, history[k].tasks[ids[j]].writeScope;
      && a == tasks[i].writeScope && b == tasks[j].writeScope
      && (Paths.Overlapping(root, LockedPlans.Values(a), LockedPlans.Values(b)) <==>
          LockedPlans.HidesOverlap(root, a, b))
      && (LockedPlans.Straight(root, tasks) ==>
          !Paths.Overlapping(root, LockedPlans.Values(a), LockedPlans.Values(b)))
  {
    var tables := history[k];
    assert PlanSafe(tables, tasks, ids, Rewriting(tasks, ids));
    assert MatchesNode(tables.tasks[ids[i]], tasks[i], run, Rewriting(tasks, ids));
    assert MatchesNode(tables.tasks[ids[j]], tasks[j], run, Rewriting(tasks, ids));
    RunningAreConcurrent(tables, tasks, ids, i, j);
    RunningAreConcurrent(tables, tasks, ids, j, i);
    WriteScopes.NoConflictsIff(tasks);
    assert !WriteScopes.Conflicting(tasks[i], tasks[j]);
    LockedPlans.OverlapOfUnseen(root, tasks[i].writeScope, tasks[j].writeScope);
    if LockedPlans.HidesOverlap(root, tasks[i].writeScope, tasks[j].writeScope) {
      LockedPlans.HiddenIsAskew(root, tasks, i, j);
    }
  }
}
