/** The engine, the dependency order and the layers agree on one graph. */
module Agreement {
  import opened Domain
  import opened Graph
  import opened Scheduler
  import opened RunEngine
  import opened Confluence
  import opened Execution
  import TaskGraph
  import DependencyOrder
  import LayerTasks
  import Collections

  // --- layers and the dependency order -----------------------------------------------------------

  lemma {:induction false} FlattenFrom(layers: seq<seq<PlanTask>>, tasks: seq<PlanTask>, g: Graph, k: nat, n: nat)
    requires LayerTasks.LayersAre(layers, tasks, g) && k <= |layers| <= n
    ensures Collections.Concat(layers[k..]) == DependencyOrder.Levels(tasks, g, k, n)
    decreases n - k
  {
    if k < |layers| {
      FlattenFrom(layers, tasks, g, k + 1, n);
      assert layers[k..][1..] == layers[k + 1..];
    } else {
      NothingFurther(layers, tasks, g, k, n);
    }
  }

  lemma {:induction false} NothingFurther(layers: seq<seq<PlanTask>>, tasks: seq<PlanTask>, g: Graph, k: nat, n: nat)
    requires LayerTasks.LayersAre(layers, tasks, g) && |layers| <= k <= n
    ensures DependencyOrder.Levels(tasks, g, k, n) == []
    decreases n - k
  {
    if k < n {
      NothingFurther(layers, tasks, g, k + 1, n);
    }
  }

  /** Flattening the layers of a valid plan gives its dependency order exactly. */
  lemma LayersFlatten(tasks: seq<PlanTask>, layers: seq<seq<PlanTask>>)
    requires UniqueIds(tasks) && Closed(TaskGraph.GraphOf(tasks))
    requires LayerTasks.LayersAre(layers, tasks, LayerTasks.Known(TaskGraph.GraphOf(tasks)))
    requires forall k :: 0 <= k < |layers| ==> layers[k] != []
    ensures var g := TaskGraph.GraphOf(tasks); Collections.Concat(layers) == DependencyOrder.Levels(tasks, g, 0, |g|)
  {
    var g := TaskGraph.GraphOf(tasks);
    LayerTasks.KnownKeepsEdges(g);
    AtMostOneLayerEach(tasks, layers, g);
    FlattenFrom(layers, tasks, g, 0, |g|);
    assert layers[0..] == layers;
  }

  lemma AtMostOneLayerEach(tasks: seq<PlanTask>, layers: seq<seq<PlanTask>>, g: Graph)
    requires LayerTasks.LayersAre(layers, tasks, g)
    requires forall k :: 0 <= k < |layers| ==> layers[k] != []
    ensures |layers| <= |g|
  {
    if |layers| > |g| {
      assert layers[|g|] == DependencyOrder.LevelTasks(tasks, g, |g|);
      DoneSettles(g, {}, |g|);
      assert Level(g, {}, |g|) == {};
      DependencyOrder.WithinIds(tasks, {});
      DependencyOrder.NoIds(DependencyOrder.LevelTasks(tasks, g, |g|));
    }
  }

  // --- the engine's batches ------------------------------------------------------------------------

  lemma {:induction false} BatchAt(rows: map<TaskId, RunTask>, outcomes: TaskId -> RunnerResult, n: nat, k: nat)
    requires k < n
    ensures |FirstLevels(rows, outcomes, n)| == n
    ensures FirstLevels(rows, outcomes, n)[k] == Level(GraphOfRows(rows), Unsuccessful(rows, outcomes), k)
    decreases n
  {
    if k < n - 1 {
      BatchAt(rows, outcomes, n - 1, k);
    } else {
      FirstLevelsLength(rows, outcomes, n - 1);
    }
  }

  lemma {:induction false} FirstLevelsLength(rows: map<TaskId, RunTask>, outcomes: TaskId -> RunnerResult, n: nat)
    ensures |FirstLevels(rows, outcomes, n)| == n
  {
    if n > 0 {
      FirstLevelsLength(rows, outcomes, n - 1);
    }
  }

  lemma LevelsRename(f: map<TaskId, TaskId>, g: Graph, h: Graph, bad: set<TaskId>, wrong: set<TaskId>, k: nat)
    requires Renames(f, g, h) && forall b :: b in g ==> (b in bad <==> f[b] in wrong)
    ensures Level(g, bad, k) <= f.Keys && Level(h, wrong, k) == Image(f, Level(g, bad, k))
  {
    var here, there := Level(g, bad, k), Level(h, wrong, k);
    forall a | a in g ensures a in here <==> f[a] in there {
      RoundsRename(f, g, h, bad, wrong, k, a);
      RoundsRename(f, g, h, bad, wrong, k + 1, a);
    }
    forall b | b in there ensures b in Image(f, here) {
      assert b in f.Values;
      var a :| a in f && f[a] == b;
    }
  }

  /** The runner lets every task of the run succeed. */
  ghost predicate EverythingSucceeds(rows: map<TaskId, RunTask>, outcomes: TaskId -> RunnerResult) {
    forall id :: id in rows ==> outcomes(id).Success?
  }

  lemma NoLevelAfterTheLast(g: Graph, bad: set<TaskId>, j: nat, k: nat)
    requires DoneAfter(g, bad, j) == DoneAfter(g, bad, |g|) && j <= k
    ensures Level(g, bad, k) == {}
  {
    DoneSettles(g, bad, k + 1);
    DoneMonotone(g, bad, j, k);
  }

  /** Batch by batch: a batch for every level that has tasks, and no other. */
  lemma BatchesAreLevels(rows: map<TaskId, RunTask>, outcomes: TaskId -> RunnerResult, batches: seq<set<TaskId>>,
                         h: Graph, k: nat)
    requires Unsuccessful(rows, outcomes) == {} && RunsLevels(batches, rows, outcomes, true) && h == GraphOfRows(rows)
    ensures k < |batches| <==> Level(h, {}, k) != {}
    ensures k < |batches| ==> batches[k] == Level(h, {}, k)
  {
    assert h.Keys == rows.Keys && |h| == |h.Keys| && |rows| == |rows.Keys|;
    if k < |batches| {
      BatchAt(rows, outcomes, |batches|, k);
      assert batches[k] in batches;
    } else {
      NoLevelAfterTheLast(h, {}, |batches|, k);
    }
  }

  /** A level is drawn as a layer exactly when it has tasks, and the layer holds those tasks. */
  lemma LayerIds(layers: seq<seq<PlanTask>>, tasks: seq<PlanTask>, g: Graph, k: nat)
    requires LayerTasks.LayersAre(layers, tasks, g) && TaskGraph.Ids(tasks) == g.Keys
    requires forall i :: 0 <= i < |layers| ==> layers[i] != []
    ensures k < |layers| <==> Level(g, {}, k) != {}
    ensures k < |layers| ==> TaskGraph.Ids(layers[k]) == Level(g, {}, k)
  {
    DependencyOrder.WithinIds(tasks, Level(g, {}, k));
    assert Level(g, {}, k) <= g.Keys;
    assert TaskGraph.Ids(DependencyOrder.LevelTasks(tasks, g, k)) == Level(g, {}, k);
    DependencyOrder.NoIds(DependencyOrder.LevelTasks(tasks, g, k));
  }

  /** With every task succeeding, batch k of the engine is layer k, and there are as many of each. */
  lemma BatchesAreLayers(tasks: seq<PlanTask>, ids: seq<TaskId>, run: RunId, now: Moment, rows: seq<RunTask>,
                         outcomes: TaskId -> RunnerResult, batches: seq<set<TaskId>>, layers: seq<seq<PlanTask>>)
    requires UniqueIds(tasks) && Closed(TaskGraph.GraphOf(tasks))
    requires FreshIds(ids, |tasks|) && Materialized(tasks, ids, run, now, rows) && DistinctIds(rows)
    requires EverythingSucceeds(ById(rows), outcomes) && RunsLevels(batches, ById(rows), outcomes, true)
    requires LayerTasks.LayersAre(layers, tasks, LayerTasks.Known(TaskGraph.GraphOf(tasks)))
    requires forall k :: 0 <= k < |layers| ==> layers[k] != []
    ensures |batches| == |layers|
    ensures forall k :: 0 <= k < |batches| ==> BatchIsLayer(batches[k], Rewriting(tasks, ids), layers[k])
  {
    var f, g := Rewriting(tasks, ids), TaskGraph.GraphOf(tasks);
    MaterializeRenames(tasks, ids, run, now, rows);
    LayerTasks.KnownKeepsEdges(g);
    assert Unsuccessful(ById(rows), outcomes) == {};
    SameIds(tasks);
    BatchesOfLayers(tasks, f, g, ById(rows), outcomes, batches, layers);
  }

  lemma SameIds(tasks: seq<PlanTask>)
    requires UniqueIds(tasks)
    ensures TaskGraph.Ids(tasks) == TaskGraph.GraphOf(tasks).Keys
  {
  }

  ghost predicate BatchIsLayer(batch: set<TaskId>, f: map<TaskId, TaskId>, layer: seq<PlanTask>) {
    TaskGraph.Ids(layer) <= f.Keys && batch == Image(f, TaskGraph.Ids(layer))
  }

  lemma BatchOfLayer(tasks: seq<PlanTask>, f: map<TaskId, TaskId>, g: Graph, rows: map<TaskId, RunTask>,
                     outcomes: TaskId -> RunnerResult, batches: seq<set<TaskId>>, layers: seq<seq<PlanTask>>, k: nat)
    requires Renames(f, g, GraphOfRows(rows)) && TaskGraph.Ids(tasks) == g.Keys
    requires Unsuccessful(rows, outcomes) == {} && RunsLevels(batches, rows, outcomes, true)
    requires LayerTasks.LayersAre(layers, tasks, g) && forall i :: 0 <= i < |layers| ==> layers[i] != []
    ensures k < |batches| <==> k < |layers|
    ensures k < |batches| ==> BatchIsLayer(batches[k], f, layers[k])
  {
    BatchesAreLevels(rows, outcomes, batches, GraphOfRows(rows), k);
    LevelsRename(f, g, GraphOfRows(rows), {}, {}, k);
    LayerIds(layers, tasks, g, k);
    NoneOfNone(f, Level(g, {}, k));
  }

  lemma BatchesOfLayers(tasks: seq<PlanTask>, f: map<TaskId, TaskId>, g: Graph, rows: map<TaskId, RunTask>,
                        outcomes: TaskId -> RunnerResult, batches: seq<set<TaskId>>, layers: seq<seq<PlanTask>>)
    requires Renames(f, g, GraphOfRows(rows)) && TaskGraph.Ids(tasks) == g.Keys
    requires Unsuccessful(rows, outcomes) == {} && RunsLevels(batches, rows, outcomes, true)
    requires LayerTasks.LayersAre(layers, tasks, g) && forall i :: 0 <= i < |layers| ==> layers[i] != []
    ensures |batches| == |layers|
    ensures forall k :: 0 <= k < |batches| ==> BatchIsLayer(batches[k], f, layers[k])
  {
    BatchOfLayer(tasks, f, g, rows, outcomes, batches, layers, |batches|);
    BatchOfLayer(tasks, f, g, rows, outcomes, batches, layers, |layers|);
    forall k | 0 <= k < |batches| ensures BatchIsLayer(batches[k], f, layers[k]) {
      BatchOfLayer(tasks, f, g, rows, outcomes, batches, layers, k);
    }
  }

  lemma NoneOfNone(f: map<TaskId, TaskId>, keys: set<TaskId>)
    requires keys <= f.Keys
    ensures Image(f, keys) == {} <==> keys == {}
  {
    if a :| a in keys {
      assert f[a] in Image(f, keys);
    }
  }
}
