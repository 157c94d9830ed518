/** Checking and ordering a plan's task graph (src/AtlasFlow.Orchestration/Planning/TaskGraph.cs). */
module TaskGraph {
  import opened Wrappers
  import opened Domain
  import opened Graph

  datatype GraphError =
    | UnknownDependency(task: TaskId, dependency: TaskId)
    | CycleInvolving(task: TaskId)

  datatype GraphException = DuplicateKey | CannotResolveOrder

  function GraphOf(tasks: seq<PlanTask>): (g: Graph)
    requires UniqueIds(tasks)
    ensures forall i :: 0 <= i < |tasks| ==> tasks[i].id in g && g[tasks[i].id] == tasks[i].dependencies
  {
    map i | 0 <= i < |tasks| :: tasks[i].id := tasks[i].dependencies
  }

  function Ids(tasks: seq<PlanTask>): (ids: set<TaskId>)
  {
    set i | 0 <= i < |tasks| :: tasks[i].id
  }

  // --- cycles ----------------------------------------------------------------------

  datatype Mark = Unvisited | InProgress | Done

  /** The dictionary of marks one search recolours in place. */
  class MarkTable {
    var marks: map<TaskId, Mark>

    constructor (ids: set<TaskId>)
      ensures marks == map id | id in ids :: Unvisited
    {
      marks := map id | id in ids :: Unvisited;
    }
  }

  ghost function Marked(marks: map<TaskId, Mark>, m: Mark): set<TaskId> {
    set id | id in marks && marks[id] == m
  }

  /** What is finished stays finished: its dependencies are too, and none of it reaches a cycle. */
  ghost predicate Explored(g: Graph, marks: map<TaskId, Mark>) {
    && marks.Keys == g.Keys
    && (forall a, b :: Edge(g, a, b) && marks[a] == Done ==> marks[b] == Done)
    && (forall a :: a in g && marks[a] == Done ==> !ReachesCycle(g, a))
  }

  /** The tasks in progress are exactly the walk from the start of the search to its parent. */
  ghost predicate OnStack(g: Graph, marks: map<TaskId, Mark>, stack: seq<TaskId>) {
    forall id :: id in marks ==> (marks[id] == InProgress <==> id in stack)
  }

  lemma ReachesThroughEdge(g: Graph, a: TaskId, b: TaskId)
    requires Edge(g, a, b) && ReachesCycle(g, b)
    ensures ReachesCycle(g, a)
  {
    var p :| IsPath(g, p) && p[0] == b && Revisits(p);
    var q := [a] + p;
    var i, j :| 0 <= i < j < |p| && p[i] == p[j];
    assert q[i + 1] == q[j + 1];
    assert IsPath(g, q);
  }

  /** Meeting a task of the current walk again closes a cycle through it. */
  lemma ReachesThroughStack(g: Graph, stack: seq<TaskId>, node: TaskId, next: TaskId)
    requires IsPath(g, stack + [node]) && Edge(g, node, next) && next in stack + [node]
    ensures ReachesCycle(g, node)
  {
    var walk := stack + [node];
    var i :| 0 <= i < |walk| && walk[i] == next;
    DropPrefix(g, walk, i);
    var p := [node] + walk[i..];
    assert IsPath(g, p);
    assert p[0] == p[|p| - 1];
    assert Revisits(p);
  }

  lemma {:induction false} DoneIsClosed(g: Graph, marks: map<TaskId, Mark>, p: seq<TaskId>, i: nat)
    requires Explored(g, marks) && IsPath(g, p) && i < |p| && marks[p[0]] == Done
    ensures p[i] in g && marks[p[i]] == Done
  {
    if i > 0 {
      DoneIsClosed(g, marks, p, i - 1);
      assert Edge(g, p[i - 1], p[i]);
    }
  }

  /** A task all of whose dependencies are finished can be finished too. */
  lemma Finished(g: Graph, marks: map<TaskId, Mark>, node: TaskId)
    requires Explored(g, marks) && node in g && marks[node] != Done
    requires forall b :: Edge(g, node, b) ==> marks[b] == Done
    ensures !ReachesCycle(g, node)
  {
    if p :| IsPath(g, p) && p[0] == node && Revisits(p) {
      var i, j :| 0 <= i < j < |p| && p[i] == p[j];
      assert Edge(g, p[0], p[1]);
      DropPrefix(g, p, 1);
      var rest := p[1..];
      if i == 0 {
        DoneIsClosed(g, marks, rest, j - 1);
      }
    }
  }

  ghost predicate KeepsDone(before: map<TaskId, Mark>, after: map<TaskId, Mark>) {
    forall id :: id in before && before[id] == Done ==> id in after && after[id] == Done
  }

  ghost predicate DoneUpTo(g: Graph, dependencies: seq<TaskId>, i: nat, marks: map<TaskId, Mark>) {
    i <= |dependencies| &&
    forall k :: 0 <= k < i && dependencies[k] in g ==> dependencies[k] in marks && marks[dependencies[k]] == Done
  }

  lemma DoneOneMore(g: Graph, dependencies: seq<TaskId>, i: nat, before: map<TaskId, Mark>, after: map<TaskId, Mark>)
    requires i < |dependencies| && DoneUpTo(g, dependencies, i, before) && KeepsDone(before, after)
    requires dependencies[i] in g ==> dependencies[i] in after && after[dependencies[i]] == Done
    ensures DoneUpTo(g, dependencies, i + 1, after)
  {
  }

  lemma Enters(g: Graph, marks: map<TaskId, Mark>, stack: seq<TaskId>, node: TaskId)
    requires Explored(g, marks) && OnStack(g, marks, stack) && node in g && marks[node] == Unvisited
    ensures var entered := marks[node := InProgress];
      && Explored(g, entered) && OnStack(g, entered, stack + [node])
      && Marked(entered, Unvisited) < Marked(marks, Unvisited) && KeepsDone(marks, entered)
    ensures node !in stack
  {
    assert node in Marked(marks, Unvisited) && node !in Marked(marks[node := InProgress], Unvisited);
  }

  lemma Leaves(g: Graph, marks: map<TaskId, Mark>, stack: seq<TaskId>, node: TaskId)
    requires Explored(g, marks) && OnStack(g, marks, stack + [node]) && node in g && node !in stack
    requires DoneUpTo(g, g[node], |g[node]|, marks)
    ensures !ReachesCycle(g, node)
    ensures var left := marks[node := Done];
      && Explored(g, left) && OnStack(g, left, stack)
      && Marked(left, Unvisited) <= Marked(marks, Unvisited) && KeepsDone(marks, left)
  {
    assert marks[node] == InProgress;
    forall b | Edge(g, node, b) ensures marks[b] == Done {
      var k :| 0 <= k < |g[node]| && g[node][k] == b;
    }
    Finished(g, marks, node);
  }

  method HasCycleFrom(node: TaskId, table: MarkTable, edges: Graph, ghost stack: seq<TaskId>) returns (found: bool)
    requires Explored(edges, table.marks) && OnStack(edges, table.marks, stack)
    requires node in edges && table.marks[node] == Unvisited && IsPath(edges, stack + [node])
    modifies table
    ensures found <==> ReachesCycle(edges, node)
    ensures !found ==> Explored(edges, table.marks) && OnStack(edges, table.marks, stack)
    ensures !found ==> table.marks[node] == Done
    ensures !found ==> KeepsDone(old(table.marks), table.marks)
    ensures Marked(table.marks, Unvisited) <= old(Marked(table.marks, Unvisited))
    decreases Marked(table.marks, Unvisited), 0
  {
    ghost var before := table.marks;
    table.marks := table.marks[node := InProgress];
    Enters(edges, before, stack, node);
    var dependencies := edges[node];
    ghost var walk := stack + [node];

    for i := 0 to |dependencies|
      invariant Explored(edges, table.marks) && OnStack(edges, table.marks, walk)
      invariant DoneUpTo(edges, dependencies, i, table.marks) && KeepsDone(before, table.marks)
      invariant Marked(table.marks, Unvisited) < Marked(before, Unvisited)
    {
      ghost var marks := table.marks;
      var deeper := HasCycleThrough(node, dependencies[i], table, edges, stack);
      if deeper {
        return true;
      }
      DoneOneMore(edges, dependencies, i, marks, table.marks);
    }

    Leaves(edges, table.marks, stack, node);
    table.marks := table.marks[node := Done];
    return false;
  }

  /** The search along one dependency of a task in progress; a dangling one is not a cycle. */
  method HasCycleThrough(node: TaskId, next: TaskId, table: MarkTable, edges: Graph, ghost stack: seq<TaskId>)
    returns (found: bool)
    requires node in edges && next in edges[node] && IsPath(edges, stack + [node])
    requires Explored(edges, table.marks) && OnStack(edges, table.marks, stack + [node])
    modifies table
    ensures found ==> ReachesCycle(edges, node)
    ensures !found ==> Explored(edges, table.marks) && OnStack(edges, table.marks, stack + [node])
    ensures !found && next in edges ==> table.marks[next] == Done
    ensures !found ==> KeepsDone(old(table.marks), table.marks)
    ensures Marked(table.marks, Unvisited) <= old(Marked(table.marks, Unvisited))
    decreases Marked(table.marks, Unvisited), 1
  {
    if next !in table.marks || table.marks[next] == Done {
      return false;
    }
    assert Edge(edges, node, next);
    if table.marks[next] == InProgress {
      ReachesThroughStack(edges, stack, node, next);
      return true;
    }
    assert IsPath(edges, stack + [node] + [next]);
    found := HasCycleFrom(next, table, edges, stack + [node]);
    if found {
      ReachesThroughEdge(edges, node, next);
    }
  }

  /** The first task, in plan order, from which some walk goes round a cycle. */
  ghost predicate FirstReachingCycle(tasks: seq<PlanTask>, g: Graph, t: TaskId) {
    exists i :: 0 <= i < |tasks| && tasks[i].id == t && ReachesCycle(g, t) && NoneReaches(tasks, i, g)
  }

  ghost predicate NoneReaches(tasks: seq<PlanTask>, n: nat, g: Graph)
    requires n <= |tasks|
  {
    forall k :: 0 <= k < n ==> !ReachesCycle(g, tasks[k].id)
  }

  method FindCycle(tasks: seq<PlanTask>) returns (r: Result<Option<TaskId>, GraphException>)
    ensures r.Err? <==> !UniqueIds(tasks)
    ensures r.Err? ==> r.error == DuplicateKey
    ensures r.Ok? ==> (r.value.None? <==> Acyclic(GraphOf(tasks)))
    ensures r.Ok? && r.value.Some? ==> FirstReachingCycle(tasks, GraphOf(tasks), r.value.value)
  {
    var unique := HasUniqueIds(tasks);
    if !unique {
      return Err(DuplicateKey);
    }
    var edges := GraphOf(tasks);
    var table := new MarkTable(edges.Keys);
    var found := SearchFromEach(tasks, table, edges);
    NobodyReaches(tasks, edges);
    return Ok(found);
  }

  method SearchFromEach(tasks: seq<PlanTask>, table: MarkTable, edges: Graph) returns (r: Option<TaskId>)
    requires table.marks.Keys == edges.Keys
    requires forall id :: id in edges ==> table.marks[id] == Unvisited
    requires forall i :: 0 <= i < |tasks| ==> tasks[i].id in edges
    modifies table
    ensures r.None? ==> NoneReaches(tasks, |tasks|, edges)
    ensures r.Some? ==> FirstReachingCycle(tasks, edges, r.value)
  {
    for i := 0 to |tasks|
      invariant Explored(edges, table.marks) && OnStack(edges, table.marks, [])
      invariant forall k :: 0 <= k < i ==> table.marks[tasks[k].id] == Done
    {
      var start := tasks[i].id;
      if table.marks[start] == Unvisited {
        var found := HasCycleFrom(start, table, edges, []);
        if found {
          assert NoneReaches(tasks, i, edges);
          return Some(start);
        }
      }
    }
    return None;
  }

  lemma NobodyReaches(tasks: seq<PlanTask>, g: Graph)
    requires UniqueIds(tasks) && g == GraphOf(tasks)
    ensures NoneReaches(tasks, |tasks|, g) <==> Acyclic(g)
    ensures forall t :: FirstReachingCycle(tasks, g, t) ==> !Acyclic(g)
  {
    AcyclicMeansNothingReachesACycle(g);
  }

  /** What building a dictionary keyed by id discovers. */
  method HasUniqueIds(tasks: seq<PlanTask>) returns (unique: bool)
    ensures unique <==> UniqueIds(tasks)
  {
    var seen: set<TaskId> := {};
    for i := 0 to |tasks|
      invariant UniqueIds(tasks[..i])
      invariant seen == Ids(tasks[..i])
    {
      if tasks[i].id in seen {
        return false;
      }
      seen := seen + {tasks[i].id};
      assert tasks[..i + 1] == tasks[..i] + [tasks[i]];
    }
    assert tasks[..|tasks|] == tasks;
    return true;
  }

  // --- validation --------------------------------------------------------------------

  ghost predicate Dangling(tasks: seq<PlanTask>, known: set<TaskId>, e: GraphError) {
    && e.UnknownDependency?
    && e.dependency !in known
    && exists i :: 0 <= i < |tasks| && Asks(tasks[i], e)
  }

  ghost predicate Asks(task: PlanTask, e: GraphError) {
    e.UnknownDependency? && task.id == e.task && e.dependency in task.dependencies
  }

  /** One error for each dependency, up to j, that names no known task, in the order they are listed. */
  function UnknownOf(task: PlanTask, known: set<TaskId>, j: nat): seq<GraphError>
    requires j <= |task.dependencies|
  {
    if j == 0 then []
    else
      UnknownOf(task, known, j - 1) +
      (if task.dependencies[j - 1] in known then [] else [UnknownDependency(task.id, task.dependencies[j - 1])])
  }

  function UnknownIn(tasks: seq<PlanTask>, known: set<TaskId>): seq<GraphError> {
    if tasks == [] then []
    else
      var last := tasks[|tasks| - 1];
      UnknownIn(tasks[..|tasks| - 1], known) + UnknownOf(last, known, |last.dependencies|)
  }

  lemma {:induction false} UnknownOfIff(task: PlanTask, known: set<TaskId>, j: nat, e: GraphError)
    requires j <= |task.dependencies|
    ensures e in UnknownOf(task, known, j) <==>
      e.UnknownDependency? && task.id == e.task && e.dependency in task.dependencies[..j] && e.dependency !in known
  {
    if j > 0 {
      UnknownOfIff(task, known, j - 1, e);
      assert task.dependencies[..j] == task.dependencies[..j - 1] + [task.dependencies[j - 1]];
    }
  }

  lemma {:induction false} UnknownInIff(tasks: seq<PlanTask>, known: set<TaskId>, e: GraphError)
    ensures e in UnknownIn(tasks, known) <==> Dangling(tasks, known, e)
  {
    if tasks != [] {
      var init, last := tasks[..|tasks| - 1], tasks[|tasks| - 1];
      UnknownInIff(init, known, e);
      UnknownOfIff(last, known, |last.dependencies|, e);
      assert last.dependencies[..|last.dependencies|] == last.dependencies;
      DanglingGrows(init, last, known, e);
      assert tasks == init + [last];
    }
  }

  lemma DanglingGrows(tasks: seq<PlanTask>, last: PlanTask, known: set<TaskId>, e: GraphError)
    ensures Dangling(tasks + [last], known, e) <==>
            Dangling(tasks, known, e) || (Asks(last, e) && e.dependency !in known)
  {
    var longer := tasks + [last];
    assert longer[|tasks|] == last;
    if k :| 0 <= k < |tasks| && Asks(tasks[k], e) {
      assert Asks(longer[k], e);
    }
    if k :| 0 <= k < |longer| && Asks(longer[k], e) {
      assert k == |tasks| || longer[k] == tasks[k];
    }
  }

  method UnknownDependencies(tasks: seq<PlanTask>) returns (errors: seq<GraphError>)
    ensures errors == UnknownIn(tasks, Ids(tasks))
  {
    errors := [];
    var known := Ids(tasks);

    for i := 0 to |tasks|
      invariant errors == UnknownIn(tasks[..i], known)
    {
      var task := tasks[i];
      ghost var earlier := errors;
      for j := 0 to |task.dependencies|
        invariant errors == earlier + UnknownOf(task, known, j)
      {
        if task.dependencies[j] !in known {
          errors := errors + [UnknownDependency(task.id, task.dependencies[j])];
        }
      }
      assert tasks[..i + 1][..i] == tasks[..i];
    }
    assert tasks[..|tasks|] == tasks;
  }

  /**
   Every reason the graph is unusable. No error at all means exactly that nothing dangles and
   there is no cycle; a dangling dependency alone is never reported as a cycle.
   */
  method Validate(tasks: seq<PlanTask>) returns (r: Result<seq<GraphError>, GraphException>)
    ensures r.Err? <==> !UniqueIds(tasks)
    ensures r.Ok? ==> (r.value == [] <==> Closed(GraphOf(tasks)) && Acyclic(GraphOf(tasks)))
    ensures r.Ok? ==> UnknownIn(tasks, Ids(tasks)) <= r.value
    ensures r.Ok? ==> |r.value| <= |UnknownIn(tasks, Ids(tasks))| + 1
    ensures r.Ok? ==> forall e :: e in r.value && e.UnknownDependency? <==> Dangling(tasks, Ids(tasks), e)
    ensures r.Ok? ==> forall t :: CycleInvolving(t) in r.value <==> FirstReachingCycle(tasks, GraphOf(tasks), t)
  {
    var errors := UnknownDependencies(tasks);
    var cycle :- FindCycle(tasks);
    forall e { UnknownInIff(tasks, Ids(tasks), e); }
    NothingDangles(tasks, errors);
    OnlyOneIsFirst(tasks, GraphOf(tasks));
    if cycle.Some? {
      errors := errors + [CycleInvolving(cycle.value)];
    }
    return Ok(errors);
  }

  lemma NothingDangles(tasks: seq<PlanTask>, errors: seq<GraphError>)
    requires UniqueIds(tasks)
    requires forall e :: e in errors <==> Dangling(tasks, Ids(tasks), e)
    ensures errors == [] <==> Closed(GraphOf(tasks))
  {
    var g := GraphOf(tasks);
    if errors == [] {
      forall a, d | a in g && d in g[a] ensures d in g {
        var i :| 0 <= i < |tasks| && tasks[i].id == a;
        var e := UnknownDependency(a, d);
        assert Asks(tasks[i], e);
        assert e !in errors;
      }
    } else {
      var e := errors[0];
      assert e in errors;
      var i :| 0 <= i < |tasks| && Asks(tasks[i], e);
      assert tasks[i].id in g && e.dependency in g[tasks[i].id];
      assert e.dependency !in g;
    }
  }

  lemma OnlyOneIsFirst(tasks: seq<PlanTask>, g: Graph)
    requires UniqueIds(tasks)
    ensures forall a, b :: FirstReachingCycle(tasks, g, a) && FirstReachingCycle(tasks, g, b) ==> a == b
    ensures Acyclic(g) ==> forall a :: !FirstReachingCycle(tasks, g, a)
  {
    forall a, b | FirstReachingCycle(tasks, g, a) && FirstReachingCycle(tasks, g, b) ensures a == b {
      var i :| 0 <= i < |tasks| && tasks[i].id == a && ReachesCycle(g, a) && NoneReaches(tasks, i, g);
      var j :| 0 <= j < |tasks| && tasks[j].id == b && ReachesCycle(g, b) && NoneReaches(tasks, j, g);
      assert i == j;
    }
  }
}
