/**
 The round-based topological sort (TaskGraph.InDependencyOrder) and what its rounds mean.
 */
module DependencyOrder {
  import opened Wrappers
  import opened Domain
  import opened Graph
  import opened TaskGraph

  // --- the source's list operations ---------------------------------------------------

  predicate AllIn(dependencies: seq<TaskId>, done: set<TaskId>) {
    forall d :: d in dependencies ==> d in done
  }

  /** The tasks all of whose dependencies are done, in list order. */
  function ReadyOf(tasks: seq<PlanTask>, done: set<TaskId>): (ready: seq<PlanTask>)
  {
    if tasks == [] then []
    else if AllIn(tasks[0].dependencies, done) then [tasks[0]] + ReadyOf(tasks[1..], done)
    else ReadyOf(tasks[1..], done)
  }

  function WaitingOf(tasks: seq<PlanTask>, done: set<TaskId>): (waiting: seq<PlanTask>)
    ensures |waiting| + |ReadyOf(tasks, done)| == |tasks|
  {
    if tasks == [] then []
    else if AllIn(tasks[0].dependencies, done) then WaitingOf(tasks[1..], done)
    else [tasks[0]] + WaitingOf(tasks[1..], done)
  }

  lemma {:induction false} ReadyMembers(tasks: seq<PlanTask>, done: set<TaskId>, t: PlanTask)
    ensures t in ReadyOf(tasks, done) <==> t in tasks && AllIn(t.dependencies, done)
  {
    if tasks != [] {
      ReadyMembers(tasks[1..], done, t);
    }
  }

  /** List.Remove: drops the first equal element, if there is one. */
  function Remove(tasks: seq<PlanTask>, task: PlanTask): seq<PlanTask> {
    if tasks == [] then []
    else if tasks[0] == task then tasks[1..]
    else [tasks[0]] + Remove(tasks[1..], task)
  }

  ghost function RemoveEach(tasks: seq<PlanTask>, gone: seq<PlanTask>): seq<PlanTask>
    decreases |gone|
  {
    if gone == [] then tasks else RemoveEach(Remove(tasks, gone[0]), gone[1..])
  }

  lemma {:induction false} RemoveEachKeepsHead(tasks: seq<PlanTask>, gone: seq<PlanTask>)
    requires tasks != [] && tasks[0] !in gone
    ensures RemoveEach(tasks, gone) == [tasks[0]] + RemoveEach(tasks[1..], gone)
    decreases |gone|
  {
    if gone != [] {
      var shorter := [tasks[0]] + Remove(tasks[1..], gone[0]);
      assert shorter[1..] == Remove(tasks[1..], gone[0]);
      RemoveEachKeepsHead(shorter, gone[1..]);
    }
  }

  /** Removing the ready tasks one at a time leaves the waiting ones, in order. */
  lemma {:induction false} RemovingReadyLeavesWaiting(tasks: seq<PlanTask>, done: set<TaskId>)
    ensures RemoveEach(tasks, ReadyOf(tasks, done)) == WaitingOf(tasks, done)
  {
    if tasks != [] {
      var rest := ReadyOf(tasks[1..], done);
      RemovingReadyLeavesWaiting(tasks[1..], done);
      if AllIn(tasks[0].dependencies, done) {
        assert ([tasks[0]] + rest)[1..] == rest;
      } else {
        ReadyMembers(tasks[1..], done, tasks[0]);
        RemoveEachKeepsHead(tasks, rest);
      }
    }
  }

  // --- the order ----------------------------------------------------------------------

  /** The order from a point where some tasks are done and the rest remain; None when stuck. */
  function Order(remaining: seq<PlanTask>, done: set<TaskId>): Option<seq<PlanTask>>
    decreases |remaining|
  {
    var ready := ReadyOf(remaining, done);
    if remaining == [] then Some([])
    else if ready == [] then None
    else Before(ready, Order(WaitingOf(remaining, done), done + Ids(ready)))
  }

  function Before(ordered: seq<PlanTask>, later: Option<seq<PlanTask>>): Option<seq<PlanTask>> {
    match later case None => None case Some(rest) => Some(ordered + rest)
  }

  /** What a caller of InDependencyOrder relies on. */
  ghost predicate DependenciesFirst(ordered: seq<PlanTask>, done: set<TaskId>) {
    forall i :: 0 <= i < |ordered| ==> forall d :: d in ordered[i].dependencies ==>
      d in done || exists j :: 0 <= j < i && ordered[j].id == d
  }

  lemma {:induction false} SplitIsPermutation(tasks: seq<PlanTask>, done: set<TaskId>)
    ensures multiset(ReadyOf(tasks, done)) + multiset(WaitingOf(tasks, done)) == multiset(tasks)
  {
    if tasks != [] {
      var head, rest := tasks[0], tasks[1..];
      SplitIsPermutation(rest, done);
      Consed(head, ReadyOf(rest, done));
      Consed(head, WaitingOf(rest, done));
      Consed(head, rest);
      assert tasks == [head] + rest;
    }
  }

  lemma Consed<T>(head: T, rest: seq<T>)
    ensures multiset([head] + rest) == multiset{head} + multiset(rest)
  {
  }

  lemma {:induction false} OrderIsSound(remaining: seq<PlanTask>, done: set<TaskId>)
    requires Order(remaining, done).Some?
    ensures multiset(Order(remaining, done).value) == multiset(remaining)
    ensures DependenciesFirst(Order(remaining, done).value, done)
    decreases |remaining|
  {
    if remaining != [] {
      var ready := ReadyOf(remaining, done);
      var waiting := WaitingOf(remaining, done);
      OrderIsSound(waiting, done + Ids(ready));
      SplitIsPermutation(remaining, done);
      var later := Order(waiting, done + Ids(ready)).value;
      forall i, d | 0 <= i < |ready + later| && d in (ready + later)[i].dependencies
        ensures d in done || exists j :: 0 <= j < i && (ready + later)[j].id == d
      {
        if i < |ready| {
          ReadyMembers(remaining, done, ready[i]);
        } else if d !in done {
          var at := i - |ready|;
          assert later[at] == (ready + later)[i];
          if d in Ids(ready) {
            var j :| 0 <= j < |ready| && ready[j].id == d;
            assert (ready + later)[j].id == d;
          } else {
            var j :| 0 <= j < at && later[j].id == d;
            assert (ready + later)[|ready| + j].id == d;
          }
        }
      }
    }
  }

  // --- rounds are levels ----------------------------------------------------------------

  /** The tasks with ids in a set, in plan order. */
  function Within(tasks: seq<PlanTask>, ids: set<TaskId>): (chosen: seq<PlanTask>)
  {
    if tasks == [] then []
    else if tasks[0].id in ids then [tasks[0]] + Within(tasks[1..], ids)
    else Within(tasks[1..], ids)
  }

  lemma {:induction false} WithinMembers(tasks: seq<PlanTask>, ids: set<TaskId>, t: PlanTask)
    ensures t in Within(tasks, ids) <==> t in tasks && t.id in ids
  {
    if tasks != [] {
      WithinMembers(tasks[1..], ids, t);
    }
  }

  lemma WithinIds(tasks: seq<PlanTask>, ids: set<TaskId>)
    ensures Ids(Within(tasks, ids)) == Ids(tasks) * ids
  {
    forall t { WithinMembers(tasks, ids, t); }
    forall id | id in Ids(Within(tasks, ids)) ensures id in Ids(tasks) && id in ids {
      var i :| 0 <= i < |Within(tasks, ids)| && Within(tasks, ids)[i].id == id;
      assert Within(tasks, ids)[i] in Within(tasks, ids);
    }
    forall id | id in Ids(tasks) && id in ids ensures id in Ids(Within(tasks, ids)) {
      var i :| 0 <= i < |tasks| && tasks[i].id == id;
      assert tasks[i] in tasks;
      assert tasks[i] in Within(tasks, ids);
    }
  }

  lemma NoIds(tasks: seq<PlanTask>)
    ensures Ids(tasks) == {} <==> tasks == []
  {
    if tasks != [] {
      assert tasks[0].id in Ids(tasks);
    }
  }

  /** The tasks whose longest chain of dependencies has k links, in plan order. */
  ghost function LevelTasks(tasks: seq<PlanTask>, g: Graph, k: nat): seq<PlanTask> {
    Within(tasks, Level(g, {}, k))
  }

  /** The levels from k up to n, one after another. */
  ghost function Levels(tasks: seq<PlanTask>, g: Graph, k: nat, n: nat): seq<PlanTask>
    decreases n - k
  {
    if k >= n then [] else LevelTasks(tasks, g, k) + Levels(tasks, g, k + 1, n)
  }

  ghost predicate Describes(tasks: seq<PlanTask>, g: Graph) {
    forall t :: t in tasks ==> t.id in g && g[t.id] == t.dependencies
  }

  lemma {:induction false} ReadyIsNextLevel(tasks: seq<PlanTask>, g: Graph, k: nat)
    requires Describes(tasks, g)
    ensures ReadyOf(Within(tasks, g.Keys - DoneAfter(g, {}, k)), DoneAfter(g, {}, k)) == LevelTasks(tasks, g, k)
    ensures WaitingOf(Within(tasks, g.Keys - DoneAfter(g, {}, k)), DoneAfter(g, {}, k)) ==
            Within(tasks, g.Keys - DoneAfter(g, {}, k + 1))
  {
    if tasks != [] {
      ReadyIsNextLevel(tasks[1..], g, k);
      DoneGrows(g, {}, k);
      var done := DoneAfter(g, {}, k);
      var t := tasks[0];
      assert t in tasks;
      assert t.id in DoneAfter(g, {}, k + 1) <==> AllIn(t.dependencies, done);
      if t.id !in done {
        var left := Within(tasks[1..], g.Keys - done);
        assert ([t] + left)[1..] == left;
      }
    }
  }

  lemma IdsOfLevel(tasks: seq<PlanTask>, g: Graph, k: nat)
    requires Ids(tasks) == g.Keys
    ensures DoneAfter(g, {}, k) + Ids(LevelTasks(tasks, g, k)) == DoneAfter(g, {}, k + 1)
  {
    DoneGrows(g, {}, k);
    WithinIds(tasks, Level(g, {}, k));
  }

  lemma {:induction false} LevelsPastTheLastAreEmpty(tasks: seq<PlanTask>, g: Graph, k: nat, n: nat)
    requires DoneAfter(g, {}, k) == g.Keys
    ensures Levels(tasks, g, k, n) == []
    decreases n - k
  {
    if k < n {
      DoneGrows(g, {}, k);
      assert Level(g, {}, k) == {};
      WithinIds(tasks, {});
      NoIds(LevelTasks(tasks, g, k));
      LevelsPastTheLastAreEmpty(tasks, g, k + 1, n);
    }
  }

  /** The tasks not finished after k rounds, in plan order. */
  ghost function Unfinished(tasks: seq<PlanTask>, g: Graph, k: nat): seq<PlanTask> {
    Within(tasks, g.Keys - DoneAfter(g, {}, k))
  }

  lemma NobodyLeft(tasks: seq<PlanTask>, g: Graph, k: nat)
    requires Ids(tasks) == g.Keys
    ensures Unfinished(tasks, g, k) == [] <==> DoneAfter(g, {}, k) == g.Keys
  {
    WithinIds(tasks, g.Keys - DoneAfter(g, {}, k));
    NoIds(Unfinished(tasks, g, k));
    var done := DoneAfter(g, {}, k);
    assert Ids(Unfinished(tasks, g, k)) == g.Keys - done;
    assert g.Keys - done == {} <==> done == g.Keys by {
      if g.Keys - done == {} {
        assert forall id :: id in g.Keys ==> id !in g.Keys - done;
      }
    }
  }

  lemma EmptyLevel(tasks: seq<PlanTask>, g: Graph, k: nat)
    requires Ids(tasks) == g.Keys && LevelTasks(tasks, g, k) == []
    ensures DoneAfter(g, {}, k + 1) == DoneAfter(g, {}, k)
  {
    IdsOfLevel(tasks, g, k);
    NoIds(LevelTasks(tasks, g, k));
  }

  lemma LastLevel(tasks: seq<PlanTask>, g: Graph, k: nat)
    requires k <= |g| && LevelTasks(tasks, g, k) != []
    ensures k < |g|
  {
    DoneSettles(g, {}, k);
    WithinIds(tasks, Level(g, {}, k));
    NoIds(LevelTasks(tasks, g, k));
  }

  lemma OrderStep(remaining: seq<PlanTask>, done: set<TaskId>, ready: seq<PlanTask>, waiting: seq<PlanTask>,
                  after: set<TaskId>)
    requires remaining != [] && ready == ReadyOf(remaining, done) != []
    requires waiting == WaitingOf(remaining, done) && after == done + Ids(ready)
    ensures Order(remaining, done) == Before(ready, Order(waiting, after))
  {
  }

  /** What is left to list from round k on; nothing at all when some task never finishes. */
  ghost function Rest(tasks: seq<PlanTask>, g: Graph, k: nat): Option<seq<PlanTask>> {
    if DoneAfter(g, {}, |g|) == g.Keys then Some(Levels(tasks, g, k, |g|)) else None
  }

  lemma RestStep(tasks: seq<PlanTask>, g: Graph, k: nat)
    requires k < |g|
    ensures Rest(tasks, g, k) == Before(LevelTasks(tasks, g, k), Rest(tasks, g, k + 1))
  {
  }

  ghost predicate OrderedFrom(tasks: seq<PlanTask>, g: Graph, k: nat) {
    Order(Unfinished(tasks, g, k), DoneAfter(g, {}, k)) == Rest(tasks, g, k)
  }

  lemma OrderedAtEnd(tasks: seq<PlanTask>, g: Graph, k: nat)
    requires Ids(tasks) == g.Keys && k <= |g| && Unfinished(tasks, g, k) == []
    ensures OrderedFrom(tasks, g, k)
  {
    NobodyLeft(tasks, g, k);
    DoneSettles(g, {}, k);
    LevelsPastTheLastAreEmpty(tasks, g, k, |g|);
  }

  lemma OrderedWhenStuck(tasks: seq<PlanTask>, g: Graph, k: nat)
    requires Describes(tasks, g) && Ids(tasks) == g.Keys && k <= |g|
    requires Unfinished(tasks, g, k) != [] && LevelTasks(tasks, g, k) == []
    ensures OrderedFrom(tasks, g, k)
  {
    ReadyIsNextLevel(tasks, g, k);
    NobodyLeft(tasks, g, k);
    EmptyLevel(tasks, g, k);
    DoneStalls(g, {}, k, |g|);
  }

  lemma OrderedStep(tasks: seq<PlanTask>, g: Graph, k: nat)
    requires Describes(tasks, g) && Ids(tasks) == g.Keys && k < |g|
    requires Unfinished(tasks, g, k) != [] && LevelTasks(tasks, g, k) != []
    requires OrderedFrom(tasks, g, k + 1)
    ensures OrderedFrom(tasks, g, k)
  {
    ReadyIsNextLevel(tasks, g, k);
    IdsOfLevel(tasks, g, k);
    OrderStep(Unfinished(tasks, g, k), DoneAfter(g, {}, k), LevelTasks(tasks, g, k),
      Unfinished(tasks, g, k + 1), DoneAfter(g, {}, k + 1));
    RestStep(tasks, g, k);
  }

  /** From round k on, the order is the levels from k on; it exists when every task finishes. */
  lemma {:induction false} OrderIsLevels(tasks: seq<PlanTask>, g: Graph, k: nat)
    requires Describes(tasks, g) && Ids(tasks) == g.Keys && k <= |g|
    ensures OrderedFrom(tasks, g, k)
    decreases |g| - k
  {
    if Unfinished(tasks, g, k) == [] {
      OrderedAtEnd(tasks, g, k);
    } else if LevelTasks(tasks, g, k) == [] {
      OrderedWhenStuck(tasks, g, k);
    } else {
      LastLevel(tasks, g, k);
      OrderIsLevels(tasks, g, k + 1);
      OrderedStep(tasks, g, k);
    }
  }

  lemma {:induction false} WithinEverything(tasks: seq<PlanTask>, ids: set<TaskId>)
    requires Ids(tasks) <= ids
    ensures Within(tasks, ids) == tasks
  {
    if tasks != [] {
      assert tasks[0].id in Ids(tasks);
      forall id | id in Ids(tasks[1..]) ensures id in Ids(tasks) {
        var i :| 0 <= i < |tasks[1..]| && tasks[1..][i].id == id;
        assert tasks[i + 1].id == id;
      }
      WithinEverything(tasks[1..], ids);
    }
  }

  lemma OrderOfPlan(tasks: seq<PlanTask>)
    requires UniqueIds(tasks)
    ensures var g := GraphOf(tasks);
            Order(tasks, {}) == if Closed(g) && Acyclic(g) then Some(Levels(tasks, g, 0, |g|)) else None
  {
    var g := GraphOf(tasks);
    assert Ids(tasks) == g.Keys;
    WithinEverything(tasks, g.Keys);
    assert g.Keys - DoneAfter(g, {}, 0) == g.Keys;
    OrderIsLevels(tasks, g, 0);
    FinishIffAcyclic(g);
  }

  /**
   Tasks in an order where every dependency comes first. It fails exactly when something dangles
   or there is a cycle, and otherwise lists the levels of the graph one after another.
   */
  method InDependencyOrder(tasks: seq<PlanTask>) returns (r: Result<seq<PlanTask>, GraphException>)
    ensures r.Ok? ==> multiset(r.value) == multiset(tasks) && DependenciesFirst(r.value, {})
    ensures r.Err? ==> r.error == CannotResolveOrder
    ensures UniqueIds(tasks) ==> (r.Ok? <==> Closed(GraphOf(tasks)) && Acyclic(GraphOf(tasks)))
    ensures UniqueIds(tasks) && r.Ok? ==> r.value == Levels(tasks, GraphOf(tasks), 0, |GraphOf(tasks)|)
  {
    r := RunRounds(tasks);
    if Order(tasks, {}).Some? {
      OrderIsSound(tasks, {});
    }
    if UniqueIds(tasks) {
      OrderOfPlan(tasks);
    }
  }

  method RunRounds(tasks: seq<PlanTask>) returns (r: Result<seq<PlanTask>, GraphException>)
    ensures r == match Order(tasks, {}) case None => Err(CannotResolveOrder) case Some(all) => Ok(all)
  {
    var remaining := tasks;
    var ordered: seq<PlanTask> := [];
    var done: set<TaskId> := {};
    assert forall all: seq<PlanTask> :: [] + all == all;

    while |remaining| > 0
      invariant Order(tasks, {}) == Before(ordered, Order(remaining, done))
      decreases |remaining|
    {
      var ready := ReadyOf(remaining, done);
      if |ready| == 0 {
        return Err(CannotResolveOrder);
      }
      OneRound(remaining, done, ordered);
      ordered, done, remaining := FinishRound(ready, ordered, done, remaining);
    }
    assert ordered + [] == ordered;
    return Ok(ordered);
  }

  lemma OneRound(remaining: seq<PlanTask>, done: set<TaskId>, ordered: seq<PlanTask>)
    requires remaining != [] && ReadyOf(remaining, done) != []
    ensures var ready := ReadyOf(remaining, done);
            Before(ordered, Order(remaining, done)) ==
            Before(ordered + ready, Order(WaitingOf(remaining, done), done + Ids(ready)))
  {
    var ready := ReadyOf(remaining, done);
    match Order(WaitingOf(remaining, done), done + Ids(ready))
    case None =>
    case Some(later) => assert ordered + (ready + later) == ordered + ready + later;
  }

  lemma RemoveNext(remaining: seq<PlanTask>, ready: seq<PlanTask>, i: nat)
    requires i < |ready|
    ensures RemoveEach(remaining, ready[i..]) == RemoveEach(Remove(remaining, ready[i]), ready[i + 1..])
    ensures ready[..i + 1] == ready[..i] + [ready[i]]
    ensures Ids(ready[..i + 1]) == Ids(ready[..i]) + {ready[i].id}
  {
    assert ready[i..][0] == ready[i] && ready[i..][1..] == ready[i + 1..];
    var shorter, longer := ready[..i], ready[..i + 1];
    assert longer == shorter + [ready[i]];
    forall id | id in Ids(longer) ensures id in Ids(shorter) + {ready[i].id} {
      var k :| 0 <= k < |longer| && longer[k].id == id;
      assert k < i ==> shorter[k] == longer[k];
    }
    forall id | id in Ids(shorter) + {ready[i].id} ensures id in Ids(longer) {
      if id in Ids(shorter) {
        var k :| 0 <= k < |shorter| && shorter[k].id == id;
        assert longer[k].id == id;
      } else {
        assert longer[i].id == id;
      }
    }
  }

  method FinishRound(ready: seq<PlanTask>, ordered0: seq<PlanTask>, done0: set<TaskId>, remaining0: seq<PlanTask>)
    returns (ordered: seq<PlanTask>, done: set<TaskId>, remaining: seq<PlanTask>)
    requires ready == ReadyOf(remaining0, done0)
    ensures ordered == ordered0 + ready
    ensures done == done0 + Ids(ready)
    ensures remaining == WaitingOf(remaining0, done0)
  {
    ordered, done, remaining := ordered0, done0, remaining0;
    RemovingReadyLeavesWaiting(remaining0, done0);
    for i := 0 to |ready|
      invariant RemoveEach(remaining, ready[i..]) == WaitingOf(remaining0, done0)
      invariant ordered == ordered0 + ready[..i]
      invariant done == done0 + Ids(ready[..i])
    {
      RemoveNext(remaining, ready, i);
      ordered := ordered + [ready[i]];
      done := done + {ready[i].id};
      remaining := Remove(remaining, ready[i]);
    }
    assert ready[..|ready|] == ready;
  }
}
