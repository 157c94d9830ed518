/**
 Longest-path layering of a plan for display (layerTasks in PlanScreen.tsx), and its agreement
 with the order the engine and the topological sort use.
 */
module LayerTasks {
  import opened Domain
  import opened Collections
  import opened Graph
  import opened TaskGraph
  import opened DependencyOrder

  /** The graph without its dangling dependencies, which the layering ignores. */
  function Known(g: Graph): Graph {
    map t | t in g :: KnownOnly(g[t], g.Keys)
  }

  function KnownOnly(dependencies: seq<TaskId>, ids: set<TaskId>): seq<TaskId> {
    if dependencies == [] then []
    else if dependencies[0] in ids then [dependencies[0]] + KnownOnly(dependencies[1..], ids)
    else KnownOnly(dependencies[1..], ids)
  }

  lemma {:induction false} KnownOnlyMembers(dependencies: seq<TaskId>, ids: set<TaskId>, d: TaskId)
    ensures d in KnownOnly(dependencies, ids) <==> d in dependencies && d in ids
  {
    if dependencies != [] {
      KnownOnlyMembers(dependencies[1..], ids, d);
    }
  }

  lemma {:induction false} KnownOnlyAll(dependencies: seq<TaskId>, ids: set<TaskId>)
    requires forall d :: d in dependencies ==> d in ids
    ensures KnownOnly(dependencies, ids) == dependencies
  {
    if dependencies != [] {
      KnownOnlyAll(dependencies[1..], ids);
    }
  }

  lemma KnownKeepsEdges(g: Graph)
    ensures Closed(Known(g))
    ensures Acyclic(Known(g)) <==> Acyclic(g)
    ensures Closed(g) ==> Known(g) == g
  {
    forall a, d | a in g { KnownOnlyMembers(g[a], g.Keys, d); }
    forall p ensures IsPath(Known(g), p) <==> IsPath(g, p) {
      assert forall a, b :: Edge(Known(g), a, b) <==> Edge(g, a, b);
    }
    if Closed(g) {
      forall a | a in g { KnownOnlyAll(g[a], g.Keys); }
    }
  }

  /** Among the first i tasks listed, the one at best is deepest, at layer h. */
  ghost predicate Deepest(g: Graph, listed: seq<TaskId>, i: nat, best: nat, h: nat) {
    && i <= |listed|
    && (forall k :: 0 <= k < i ==> listed[k] in DoneAfter(g, {}, h + 1))
    && (i > 0 ==> best < i && listed[best] in Level(g, {}, h))
  }

  lemma DeepestStep(g: Graph, listed: seq<TaskId>, i: nat, best: nat, h: nat, at: nat)
    requires Deepest(g, listed, i, best, h) && i < |listed| && listed[i] in Level(g, {}, at)
    ensures at > h || i == 0 ==> Deepest(g, listed, i + 1, i, at)
    ensures !(at > h || i == 0) ==> Deepest(g, listed, i + 1, best, h)
  {
    if at > h {
      DoneMonotone(g, {}, h + 1, at + 1);
    } else {
      DoneMonotone(g, {}, at + 1, h + 1);
    }
  }

  /** A task sits one layer below its deepest dependency, or at the top when it has none. */
  lemma DeepestPlusOne(g: Graph, t: TaskId, best: nat, h: nat)
    requires t in g && Deepest(g, g[t], |g[t]|, best, h)
    ensures t in Level(g, {}, if g[t] == [] then 0 else h + 1)
  {
  }

  /** The caches the recursion shares: layers already known, and tasks met on the way to one. */
  class LayerTable {
    var depth: map<TaskId, nat>
    var seen: set<TaskId>

    constructor ()
      ensures depth == map[] && seen == {}
    {
      depth, seen := map[], {};
    }
  }

  /** The graph the recursion walks: dependencies that name a task, looked up by id. */
  ghost predicate Walks(g: Graph, byId: map<TaskId, PlanTask>) {
    && g.Keys == byId.Keys
    && forall id :: id in byId ==> byId[id].id == id && g[id] == KnownOnly(byId[id].dependencies, byId.Keys)
  }

  ghost predicate RightDepths(g: Graph, depth: map<TaskId, nat>) {
    forall id :: id in depth ==> id in Level(g, {}, depth[id])
  }

  ghost predicate SeenExplained(depth: map<TaskId, nat>, seen: set<TaskId>, stack: seq<TaskId>) {
    forall id :: id in seen ==> id in depth || id in stack
  }

  /** What is known of a plan with unique ids and no cycle while the depths are resolved. */
  ghost predicate Resolving(g: Graph, depth: map<TaskId, nat>, seen: set<TaskId>, stack: seq<TaskId>) {
    Acyclic(g) && RightDepths(g, depth) && SeenExplained(depth, seen, stack)
  }

  lemma NeverOnItsOwnWalk(g: Graph, stack: seq<TaskId>, t: TaskId)
    requires Acyclic(g) && IsPath(g, stack + [t])
    ensures t !in stack
  {
    var walk := stack + [t];
    if i :| 0 <= i < |stack| && stack[i] == t {
      assert walk[i] == walk[|stack|];
      assert Revisits(walk);
    }
  }

  lemma ExtendWalk(g: Graph, stack: seq<TaskId>, t: TaskId, d: TaskId)
    requires IsPath(g, stack + [t]) && t in g && d in g && d in g[t]
    ensures IsPath(g, stack + [t] + [d])
  {
    assert Edge(g, t, d);
  }

  method Resolve(task: PlanTask, byId: map<TaskId, PlanTask>, table: LayerTable, ghost g: Graph,
                 ghost stack: seq<TaskId>, ghost proper: bool)
    returns (level: nat)
    requires Walks(g, byId) && task.id in byId && table.seen <= byId.Keys
    requires proper ==> Resolving(g, table.depth, table.seen, stack)
    requires proper ==> byId[task.id] == task && IsPath(g, stack + [task.id])
    modifies table
    ensures old(table.seen) <= table.seen <= byId.Keys
    ensures old(table.depth.Keys) <= table.depth.Keys
    ensures proper ==> Resolving(g, table.depth, table.seen, stack) && task.id in Level(g, {}, level)
    ensures task.id !in old(table.seen) ==> task.id in table.depth
    decreases byId.Keys - table.seen, 0
  {
    if task.id in table.depth {
      return table.depth[task.id];
    }
    if proper {
      NeverOnItsOwnWalk(g, stack, task.id);
    }
    if task.id in table.seen {
      return 0;
    }
    table.seen := table.seen + {task.id};

    var parents := KnownOnly(task.dependencies, byId.Keys);
    level := LayerBelow(task, parents, byId, table, g, stack, proper);
    table.depth := table.depth[task.id := level];
  }

  method LayerBelow(task: PlanTask, parents: seq<TaskId>, byId: map<TaskId, PlanTask>, table: LayerTable,
                    ghost g: Graph, ghost stack: seq<TaskId>, ghost proper: bool)
    returns (level: nat)
    requires Walks(g, byId) && task.id in byId && task.id in table.seen && table.seen <= byId.Keys
    requires parents == KnownOnly(task.dependencies, byId.Keys)
    requires proper ==> Resolving(g, table.depth, table.seen, stack + [task.id])
    requires proper ==> byId[task.id] == task && IsPath(g, stack + [task.id])
    modifies table
    ensures old(table.seen) <= table.seen <= byId.Keys
    ensures old(table.depth.Keys) <= table.depth.Keys
    ensures proper ==> Resolving(g, table.depth, table.seen, stack + [task.id]) && task.id in Level(g, {}, level)
    decreases byId.Keys - table.seen, 1
  {
    ghost var walk := stack + [task.id];
    var deepest: nat := 0;
    ghost var best: nat := 0;
    ParentsAreKnown(task.dependencies, byId);
    for i := 0 to |parents|
      invariant old(table.seen) <= table.seen <= byId.Keys
      invariant old(table.depth.Keys) <= table.depth.Keys
      invariant proper ==> Resolving(g, table.depth, table.seen, walk)
      invariant proper ==> Deepest(g, parents, i, best, deepest)
    {
      if proper {
        ExtendWalk(g, stack, task.id, parents[i]);
      }
      var at := Resolve(byId[parents[i]], byId, table, g, walk, proper);
      if proper {
        DeepestStep(g, parents, i, best, deepest, at);
      }
      if at > deepest || i == 0 {
        deepest, best := at, i;
      }
    }
    if proper {
      DeepestPlusOne(g, task.id, best, deepest);
    }
    return if |parents| == 0 then 0 else deepest + 1;
  }

  lemma ParentsAreKnown(dependencies: seq<TaskId>, byId: map<TaskId, PlanTask>)
    ensures forall i :: 0 <= i < |KnownOnly(dependencies, byId.Keys)| ==>
      KnownOnly(dependencies, byId.Keys)[i] in byId
  {
    forall d { KnownOnlyMembers(dependencies, byId.Keys, d); }
  }

  // --- filling the layers ------------------------------------------------------------

  lemma {:induction false} ConcatAppend(layers: seq<seq<PlanTask>>, last: seq<PlanTask>)
    ensures Concat(layers + [last]) == Concat(layers) + last
  {
    if layers == [] {
      assert layers + [last] == [last];
    } else {
      assert (layers + [last])[1..] == layers[1..] + [last];
      ConcatAppend(layers[1..], last);
    }
  }

  lemma {:induction false} ConcatPush(layers: seq<seq<PlanTask>>, level: nat, task: PlanTask)
    requires level < |layers|
    ensures multiset(Concat(layers[level := layers[level] + [task]])) == multiset(Concat(layers)) + multiset{task}
  {
    var pushed := layers[level := layers[level] + [task]];
    if level == 0 {
      assert pushed[1..] == layers[1..];
    } else {
      assert pushed[1..] == layers[1..][level - 1 := layers[1..][level - 1] + [task]];
      ConcatPush(layers[1..], level - 1, task);
    }
  }

  /** Writing past the end of a sparse array leaves holes; a hole and an empty layer read alike. */
  method Push(layers0: seq<seq<PlanTask>>, level: nat, task: PlanTask) returns (layers: seq<seq<PlanTask>>)
    ensures |layers| == if level < |layers0| then |layers0| else level + 1
    ensures forall k :: 0 <= k < |layers| ==>
      layers[k] == (if k < |layers0| then layers0[k] else []) + (if k == level then [task] else [])
    ensures multiset(Concat(layers)) == multiset(Concat(layers0)) + multiset{task}
  {
    layers := layers0;
    while |layers| <= level
      invariant |layers0| <= |layers| <= (if level < |layers0| then |layers0| else level + 1)
      invariant forall k :: 0 <= k < |layers| ==> layers[k] == if k < |layers0| then layers0[k] else []
      invariant Concat(layers) == Concat(layers0)
    {
      ConcatAppend(layers, []);
      layers := layers + [[]];
    }
    ConcatPush(layers, level, task);
    layers := layers[level := layers[level] + [task]];
  }

  /** filter(Boolean): drops the holes. */
  function Compact(layers: seq<seq<PlanTask>>): (full: seq<seq<PlanTask>>)
    ensures Concat(full) == Concat(layers)
    ensures forall k :: 0 <= k < |full| ==> full[k] != []
    ensures (forall k :: 0 <= k < |layers| ==> layers[k] != []) ==> full == layers
  {
    if layers == [] then []
    else if layers[0] == [] then Compact(layers[1..])
    else [layers[0]] + Compact(layers[1..])
  }

  lemma {:induction false} WithinAppend(tasks: seq<PlanTask>, t: PlanTask, ids: set<TaskId>)
    ensures Within(tasks + [t], ids) == Within(tasks, ids) + if t.id in ids then [t] else []
  {
    if tasks == [] {
      assert tasks + [t] == [t];
    } else {
      assert (tasks + [t])[1..] == tasks[1..] + [t];
      WithinAppend(tasks[1..], t, ids);
    }
  }

  ghost predicate LayersAre(layers: seq<seq<PlanTask>>, tasks: seq<PlanTask>, g: Graph) {
    && (forall k :: 0 <= k < |layers| ==> layers[k] == LevelTasks(tasks, g, k))
    && (forall k :: k >= |layers| ==> LevelTasks(tasks, g, k) == [])
  }

  /** The last layer in use is never a hole. */
  ghost predicate EndsFull(layers: seq<seq<PlanTask>>) {
    layers != [] ==> layers[|layers| - 1] != []
  }

  lemma PushedLayers(before: seq<seq<PlanTask>>, after: seq<seq<PlanTask>>, tasks: seq<PlanTask>, t: PlanTask,
                     g: Graph, level: nat)
    requires LayersAre(before, tasks, g) && EndsFull(before) && t.id in Level(g, {}, level)
    requires |after| == if level < |before| then |before| else level + 1
    requires forall k :: 0 <= k < |after| ==>
      after[k] == (if k < |before| then before[k] else []) + (if k == level then [t] else [])
    ensures LayersAre(after, tasks + [t], g) && EndsFull(after)
  {
    forall k: nat ensures LevelTasks(tasks + [t], g, k) == LevelTasks(tasks, g, k) + if k == level then [t] else [] {
      WithinAppend(tasks, t, Level(g, {}, k));
      if t.id in Level(g, {}, k) {
        LevelUnique(g, {}, t.id, level, k);
      }
    }
  }

  /** No hole is left once every task is placed. */
  lemma NoHoles(layers: seq<seq<PlanTask>>, tasks: seq<PlanTask>, g: Graph)
    requires LayersAre(layers, tasks, g) && EndsFull(layers) && Ids(tasks) == g.Keys
    ensures forall k :: 0 <= k < |layers| ==> layers[k] != []
  {
    forall k | 0 <= k < |layers| ensures layers[k] != [] {
      var last := |layers| - 1;
      WithinIds(tasks, Level(g, {}, last));
      NoIds(layers[last]);
      LevelsHaveNoGaps(g, {}, k, last);
      WithinIds(tasks, Level(g, {}, k));
      assert Level(g, {}, k) <= g.Keys;
      assert Ids(layers[k]) == Level(g, {}, k);
      NoIds(layers[k]);
    }
  }

  /** The dictionary by id; the last task wins when ids repeat. */
  method ById(tasks: seq<PlanTask>) returns (byId: map<TaskId, PlanTask>)
    ensures forall i :: 0 <= i < |tasks| ==> tasks[i].id in byId
    ensures forall id :: id in byId ==> byId[id].id == id && byId[id] in tasks
    ensures UniqueIds(tasks) ==> forall i :: 0 <= i < |tasks| ==> byId[tasks[i].id] == tasks[i]
  {
    byId := map[];
    for i := 0 to |tasks|
      invariant forall k :: 0 <= k < i ==> tasks[k].id in byId
      invariant forall id :: id in byId ==> byId[id].id == id && byId[id] in tasks
      invariant UniqueIds(tasks) ==> forall k :: 0 <= k < i ==> byId[tasks[k].id] == tasks[k]
    {
      byId := byId[tasks[i].id := tasks[i]];
    }
  }

  lemma WalksThePlan(tasks: seq<PlanTask>, byId: map<TaskId, PlanTask>)
    requires UniqueIds(tasks)
    requires forall i :: 0 <= i < |tasks| ==> tasks[i].id in byId && byId[tasks[i].id] == tasks[i]
    requires forall id :: id in byId ==> byId[id].id == id && byId[id] in tasks
    ensures Walks(Known(GraphOf(tasks)), byId) && Ids(tasks) == byId.Keys
  {
    assert GraphOf(tasks).Keys == byId.Keys;
  }

  /**
   Layers for display. Every task lands in exactly one; on a plan with unique ids and no cycle,
   layer k holds, in plan order, the tasks whose longest chain of known dependencies has k links.
   */
  method Layers(tasks: seq<PlanTask>) returns (layers: seq<seq<PlanTask>>)
    ensures multiset(Concat(layers)) == multiset(tasks)
    ensures UniqueIds(tasks) && Acyclic(GraphOf(tasks)) ==>
      LayersAre(layers, tasks, Known(GraphOf(tasks))) && forall k :: 0 <= k < |layers| ==> layers[k] != []
  {
    var byId := ById(tasks);
    ghost var proper := UniqueIds(tasks) && Acyclic(GraphOf(tasks));
    ghost var g := GraphWalked(byId);
    if UniqueIds(tasks) {
      g := Known(GraphOf(tasks));
      KnownKeepsEdges(GraphOf(tasks));
      WalksThePlan(tasks, byId);
    }
    var depth := ResolveAll(tasks, byId, g, proper);
    layers := Place(tasks, depth, g, proper);
    if proper {
      NoHoles(layers, tasks, g);
    }
    layers := Compact(layers);
  }

  ghost function GraphWalked(byId: map<TaskId, PlanTask>): (g: Graph)
    requires forall id :: id in byId ==> byId[id].id == id
    ensures Walks(g, byId)
  {
    map id | id in byId :: KnownOnly(byId[id].dependencies, byId.Keys)
  }

  method ResolveAll(tasks: seq<PlanTask>, byId: map<TaskId, PlanTask>, ghost g: Graph, ghost proper: bool)
    returns (depth: map<TaskId, nat>)
    requires Walks(g, byId) && forall i :: 0 <= i < |tasks| ==> tasks[i].id in byId
    requires proper ==> Acyclic(g) && forall i :: 0 <= i < |tasks| ==> byId[tasks[i].id] == tasks[i]
    ensures proper ==> RightDepths(g, depth)
    ensures forall i :: 0 <= i < |tasks| ==> tasks[i].id in depth
  {
    var table := new LayerTable();
    for i := 0 to |tasks|
      invariant proper ==> RightDepths(g, table.depth)
      invariant forall k :: 0 <= k < i ==> tasks[k].id in table.depth
    {
      table.seen := {};
      assert IsPath(g, [] + [tasks[i].id]);
      var _ := Resolve(tasks[i], byId, table, g, [], proper);
    }
    depth := table.depth;
  }

  /** The layers hold exactly these tasks, each where the graph wants it if the graph is proper. */
  ghost predicate Placed(layers: seq<seq<PlanTask>>, tasks: seq<PlanTask>, g: Graph, proper: bool) {
    && multiset(Concat(layers)) == multiset(tasks)
    && (proper ==> LayersAre(layers, tasks, g) && EndsFull(layers))
  }

  method PlaceOne(layers0: seq<seq<PlanTask>>, ghost tasks: seq<PlanTask>, task: PlanTask, level: nat, ghost g: Graph,
                  ghost proper: bool)
    returns (layers: seq<seq<PlanTask>>)
    requires Placed(layers0, tasks, g, proper) && (proper ==> task.id in Level(g, {}, level))
    ensures Placed(layers, tasks + [task], g, proper)
  {
    layers := Push(layers0, level, task);
    if proper {
      PushedLayers(layers0, layers, tasks, task, g, level);
    }
  }

  method Place(tasks: seq<PlanTask>, depth: map<TaskId, nat>, ghost g: Graph, ghost proper: bool)
    returns (layers: seq<seq<PlanTask>>)
    requires forall i :: 0 <= i < |tasks| ==> tasks[i].id in depth
    requires proper ==> RightDepths(g, depth)
    ensures Placed(layers, tasks, g, proper)
  {
    layers := [];
    for i := 0 to |tasks|
      invariant Placed(layers, tasks[..i], g, proper)
    {
      layers := PlaceOne(layers, tasks[..i], tasks[i], depth[tasks[i].id], g, proper);
      assert tasks[..i + 1] == tasks[..i] + [tasks[i]];
    }
    assert tasks[..|tasks|] == tasks;
  }
}
