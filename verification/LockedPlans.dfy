/** What the conflict check at locking is worth (PlanService.LockAsync). */
module LockedPlans {
  import opened Domain
  import opened Graph
  import opened Paths
  import opened WriteScopes
  import StateMachine
  import TaskGraph

  // --- any dependency-respecting scheduler ----------------------------------------------------

  type States = map<TaskId, TaskState>

  /** Any legal move of any task, as long as nothing becomes ready before its dependencies succeeded. */
  ghost predicate CanMove(g: Graph, states: States, t: TaskId, to: TaskState) {
    && t in g && t in states && StateMachine.CanMoveTask(states[t], to)
    && (to == TaskState.Ready ==> forall d :: d in g[t] ==> d in states && states[d] == TaskState.Succeeded)
  }

  ghost predicate Schedule(g: Graph, history: seq<States>) {
    && history != [] && history[0] == Halfway(g, {})
    && forall k {:trigger MovesAt(g, history, k)} :: 0 < k < |history| ==> MovesAt(g, history, k)
  }

  ghost predicate MovesAt(g: Graph, history: seq<States>, k: nat)
    requires 0 < k < |history|
  {
    Moves(g, history[k - 1], history[k])
  }

  ghost predicate Moves(g: Graph, before: States, after: States) {
    exists t, to :: MovesTo(g, before, t, to, after)
  }

  ghost predicate MovesTo(g: Graph, before: States, t: TaskId, to: TaskState, after: States) {
    CanMove(g, before, t, to) && after == before[t := to]
  }

  predicate Finished(state: TaskState) {
    state == TaskState.Succeeded || state == TaskState.Superseded
  }

  /** What has been released, and what has finished, waits for nothing any more. */
  ghost predicate Released(g: Graph, states: States) {
    && states.Keys == g.Keys
    && forall t, d :: t in g && d in g[t] && Past(states[t]) ==> d in states && Finished(states[d])
  }

  predicate Past(state: TaskState) {
    state == TaskState.Ready || state == TaskState.Running || Finished(state)
  }

  lemma {:induction false} AlwaysReleased(g: Graph, history: seq<States>, k: nat)
    requires Schedule(g, history) && k < |history|
    ensures Released(g, history[k])
  {
    if k > 0 {
      AlwaysReleased(g, history, k - 1);
      assert MovesAt(g, history, k);
    }
  }

  // --- order ------------------------------------------------------------------------------------

  /** a waits for b, directly or through others. */
  ghost predicate WaitsFor(g: Graph, a: TaskId, b: TaskId) {
    exists p :: IsPath(g, p) && |p| > 1 && p[0] == a && p[|p| - 1] == b
  }

  ghost predicate Unordered(g: Graph, a: TaskId, b: TaskId) {
    a != b && !WaitsFor(g, a, b) && !WaitsFor(g, b, a)
  }

  lemma {:induction false} PathIsFinished(g: Graph, states: States, p: seq<TaskId>)
    requires Released(g, states) && IsPath(g, p) && |p| > 1 && Past(states[p[0]])
    ensures p[|p| - 1] in states && Finished(states[p[|p| - 1]])
    decreases |p|
  {
    assert Edge(g, p[0], p[1]);
    if |p| > 2 {
      DropPrefix(g, p, 1);
      PathIsFinished(g, states, p[1..]);
    }
  }

  /** Tasks that run at the same time do not wait for each other. */
  lemma RunningMeansUnordered(g: Graph, states: States, a: TaskId, b: TaskId)
    requires Released(g, states) && a in g && b in g && a != b
    requires states[a] == TaskState.Running && states[b] == TaskState.Running
    ensures Unordered(g, a, b)
  {
    if p :| IsPath(g, p) && |p| > 1 && p[0] == a && p[|p| - 1] == b {
      PathIsFinished(g, states, p);
    }
    if p :| IsPath(g, p) && |p| > 1 && p[0] == b && p[|p| - 1] == a {
      PathIsFinished(g, states, p);
    }
  }

  // --- two unordered tasks can meet ----------------------------------------------------------------

  /** Succeeded within done, Planned elsewhere. */
  ghost function Halfway(g: Graph, done: set<TaskId>): States {
    map t | t in g :: if t in done then TaskState.Succeeded else TaskState.Planned
  }

  lemma Extend(g: Graph, history: seq<States>, t: TaskId, to: TaskState) returns (longer: seq<States>)
    requires Schedule(g, history) && CanMove(g, history[|history| - 1], t, to)
    ensures Schedule(g, longer) && longer[|longer| - 1] == history[|history| - 1][t := to]
  {
    longer := history + [history[|history| - 1][t := to]];
    forall k | 0 < k < |longer| ensures MovesAt(g, longer, k) {
      if k < |history| {
        assert MovesAt(g, history, k);
      } else {
        assert MovesTo(g, longer[k - 1], t, to, longer[k]);
      }
    }
  }

  /** Releases, runs and completes one task. */
  lemma Succeed(g: Graph, history: seq<States>, done: set<TaskId>, t: TaskId) returns (longer: seq<States>)
    requires Schedule(g, history) && history[|history| - 1] == Halfway(g, done)
    requires t in g && t !in done && forall d :: d in g[t] ==> d in g && d in done
    ensures Schedule(g, longer) && longer[|longer| - 1] == Halfway(g, done + {t})
  {
    longer := Extend(g, history, t, TaskState.Ready);
    longer := Extend(g, longer, t, TaskState.Running);
    longer := Extend(g, longer, t, TaskState.Succeeded);
    assert longer[|longer| - 1] == Halfway(g, done + {t});
  }

  lemma {:induction false} SucceedAll(g: Graph, history: seq<States>, done: set<TaskId>, more: set<TaskId>)
    returns (longer: seq<States>)
    requires Schedule(g, history) && history[|history| - 1] == Halfway(g, done)
    requires forall t :: t in more ==> t in g && t !in done
    requires forall t, d :: t in more && d in g[t] ==> d in g && d in done
    ensures Schedule(g, longer) && longer[|longer| - 1] == Halfway(g, done + more)
    decreases |more|
  {
    longer := history;
    if more == {} {
      assert done + more == done;
    } else {
      var t :| t in more;
      longer := Succeed(g, history, done, t);
      longer := SucceedAll(g, longer, done + {t}, more - {t});
      assert done + {t} + (more - {t}) == done + more;
    }
  }

  /** A set of tasks that waits only for its own members can be brought to an end round by round. */
  lemma {:induction false} SucceedRounds(g: Graph, own: set<TaskId>, k: nat) returns (history: seq<States>)
    requires Closed(g) && own <= g.Keys && forall t, d :: t in own && d in g[t] ==> d in own
    ensures Schedule(g, history) && history[|history| - 1] == Halfway(g, own * DoneAfter(g, {}, k))
  {
    if k == 0 {
      history := [Halfway(g, {})];
      assert own * DoneAfter(g, {}, 0) == {};
    } else {
      history := SucceedRounds(g, own, k - 1);
      var done, next := own * DoneAfter(g, {}, k - 1), own * DoneAfter(g, {}, k);
      DoneGrows(g, {}, k - 1);
      assert done + (next - done) == next;
      history := SucceedAll(g, history, done, next - done);
    }
  }

  lemma WaitsThrough(g: Graph, a: TaskId, d: TaskId, b: TaskId)
    requires Edge(g, a, d) && (d == b || WaitsFor(g, d, b))
    ensures WaitsFor(g, a, b)
  {
    if d == b {
      assert IsPath(g, [a, b]);
    } else {
      var p :| IsPath(g, p) && |p| > 1 && p[0] == d && p[|p| - 1] == b;
      var q := [a] + p;
      forall i | 0 < i < |q| ensures Edge(g, q[i - 1], q[i]) {
        if i > 1 {
          assert Edge(g, p[i - 2], p[i - 1]);
        }
      }
      assert IsPath(g, q);
    }
  }

  lemma NobodyWaitsForItself(g: Graph, a: TaskId)
    requires Acyclic(g)
    ensures !WaitsFor(g, a, a)
  {
    if p :| IsPath(g, p) && |p| > 1 && p[0] == a && p[|p| - 1] == a {
      assert Revisits(p);
    }
  }

  /** Two unordered tasks of a valid graph can be running at the same time. */
  lemma CanMeet(g: Graph, a: TaskId, b: TaskId) returns (history: seq<States>)
    requires Closed(g) && Acyclic(g) && a in g && b in g && Unordered(g, a, b)
    ensures Schedule(g, history)
    ensures var end := history[|history| - 1];
      a in end && b in end && end[a] == TaskState.Running && end[b] == TaskState.Running
  {
    var own := set t | t in g && Independent(g, t, a, b);
    forall t, d | t in own && d in g[t] ensures d in own {
      IndependenceSpreads(g, t, d, a, b);
    }
    FinishIffAcyclic(g);
    history := SucceedRounds(g, own, |g|);
    assert own * DoneAfter(g, {}, |g|) == own;
    DependenciesAreIndependent(g, a, b);
    DependenciesAreIndependent(g, b, a);
    history := StartBoth(g, history, own, a, b);
  }

  /** t is neither of the two, and waits for neither. */
  ghost predicate Independent(g: Graph, t: TaskId, a: TaskId, b: TaskId) {
    t != a && t != b && !WaitsFor(g, t, a) && !WaitsFor(g, t, b)
  }

  lemma IndependenceSpreads(g: Graph, t: TaskId, d: TaskId, a: TaskId, b: TaskId)
    requires Closed(g) && t in g && d in g[t] && Independent(g, t, a, b)
    ensures Independent(g, d, a, b)
  {
    assert Edge(g, t, d);
    if d == a || WaitsFor(g, d, a) { WaitsThrough(g, t, d, a); }
    if d == b || WaitsFor(g, d, b) { WaitsThrough(g, t, d, b); }
  }

  lemma DependenciesAreIndependent(g: Graph, a: TaskId, b: TaskId)
    requires Closed(g) && Acyclic(g) && a in g && Unordered(g, a, b)
    ensures forall d :: d in g[a] ==> Independent(g, d, a, b) && Independent(g, d, b, a)
  {
    NobodyWaitsForItself(g, a);
    forall d | d in g[a] ensures Independent(g, d, a, b) && Independent(g, d, b, a) {
      assert Edge(g, a, d);
      if d == a || WaitsFor(g, d, a) { WaitsThrough(g, a, d, a); }
      if d == b || WaitsFor(g, d, b) { WaitsThrough(g, a, d, b); }
    }
  }

  lemma StartBoth(g: Graph, before: seq<States>, own: set<TaskId>, a: TaskId, b: TaskId) returns (history: seq<States>)
    requires Schedule(g, before) && before[|before| - 1] == Halfway(g, own)
    requires a in g && b in g && a != b && a !in own && b !in own
    requires forall d :: d in g[a] || d in g[b] ==> d in g && d in own
    ensures Schedule(g, history)
    ensures var end := history[|history| - 1];
      a in end && b in end && end[a] == TaskState.Running && end[b] == TaskState.Running
  {
    history := Extend(g, before, a, TaskState.Ready);
    history := Extend(g, history, b, TaskState.Ready);
    history := Extend(g, history, a, TaskState.Running);
    history := Extend(g, history, b, TaskState.Running);
  }

  // --- races ------------------------------------------------------------------------------------------

  /** Two tasks of the plan are running, and some file belongs to the scopes of both. */
  ghost predicate Racing(root: seq<string>, tasks: seq<PlanTask>, states: States, i: nat, j: nat) {
    && i < j < |tasks| && tasks[i].id in states && tasks[j].id in states
    && states[tasks[i].id] == TaskState.Running && states[tasks[j].id] == TaskState.Running
    && Overlapping(root, Values(tasks[i].writeScope), Values(tasks[j].writeScope))
  }

  ghost function Values(scope: seq<ProjectPath>): (values: seq<string>)
    ensures |values| == |scope| && forall k :: 0 <= k < |scope| ==> values[k] == scope[k].value
  {
    seq(|scope|, k requires 0 <= k < |scope| => scope[k].value)
  }

  /** Two entries of which one leads to the other or beneath it, and in which the check sees nothing shared. */
  ghost predicate HidesOverlap(root: seq<string>, a: seq<ProjectPath>, b: seq<ProjectPath>) {
    exists k, l :: 0 <= k < |a| && 0 <= l < |b| && Unseen(root, a[k], b[l])
  }

  predicate Unseen(root: seq<string>, a: ProjectPath, b: ProjectPath) {
    Collide(root, a.value, b.value) && !InOneDirectory(a, b)
  }

  /** What the check sees nothing shared in overlaps exactly through a pair of entries it does not see. */
  lemma OverlapOfUnseen(root: seq<string>, a: seq<ProjectPath>, b: seq<ProjectPath>)
    ensures HidesOverlap(root, a, b) ==> Overlapping(root, Values(a), Values(b))
    ensures !SharesTopLevel(a, b) && Overlapping(root, Values(a), Values(b)) ==> HidesOverlap(root, a, b)
  {
    OverlappingIff(root, Values(a), Values(b));
    if k, l :| 0 <= k < |a| && 0 <= l < |b| && Unseen(root, a[k], b[l]) {
      assert Collide(root, Values(a)[k], Values(b)[l]);
    }
    if !SharesTopLevel(a, b) && Overlapping(root, Values(a), Values(b)) {
      var k, l :| 0 <= k < |a| && 0 <= l < |b| && Collide(root, Values(a)[k], Values(b)[l]);
      assert Unseen(root, a[k], b[l]);
    }
  }

  /**
   The spellings that can hide something: an entry that leads to the project root, or to another
   top-level directory than the one it begins with.
   */
  predicate Askew(root: seq<string>, path: string) {
    var at := Resolve(root, path);
    at.Some? && (at.value == [] || at.value[0] != Parts(path)[0])
  }

  lemma UnseenMeansAskew(root: seq<string>, a: ProjectPath, b: ProjectPath)
    requires Unseen(root, a, b)
    ensures Askew(root, a.value) || Askew(root, b.value)
  {
    FirstPart(a.value);
    FirstPart(b.value);
    ResolvedNames(root, a.value);
    ResolvedNames(root, b.value);
  }

  /** Entries made of names only are straight. */
  lemma PlainIsStraight(root: seq<string>, path: string)
    requires Plain(path)
    ensures !Askew(root, path)
  {
    PlainResolves(root, path);
  }

  /** Two tasks that no chain of dependencies orders, with entries in which the check sees nothing shared. */
  ghost predicate HiddenBesideAnother(root: seq<string>, tasks: seq<PlanTask>, i: nat, j: nat)
    requires UniqueIds(tasks)
  {
    && i < j < |tasks| && Unordered(TaskGraph.GraphOf(tasks), tasks[i].id, tasks[j].id)
    && HidesOverlap(root, tasks[i].writeScope, tasks[j].writeScope)
  }

  lemma RaceIsHidden(root: seq<string>, tasks: seq<PlanTask>, history: seq<States>, k: nat, i: nat, j: nat)
    requires UniqueIds(tasks) && NoConflicts(tasks)
    requires Schedule(TaskGraph.GraphOf(tasks), history) && k < |history| && Racing(root, tasks, history[k], i, j)
    ensures HiddenBesideAnother(root, tasks, i, j)
  {
    var g := TaskGraph.GraphOf(tasks);
    AlwaysReleased(g, history, k);
    assert tasks[i].id in g && tasks[j].id in g;
    RunningMeansUnordered(g, history[k], tasks[i].id, tasks[j].id);
    UnorderedMeansConcurrent(g, tasks[i], tasks[j]);
    NoConflictsIff(tasks);
    OverlapOfUnseen(root, tasks[i].writeScope, tasks[j].writeScope);
  }

  lemma UnorderedMeansConcurrent(g: Graph, a: PlanTask, b: PlanTask)
    requires a.id in g && b.id in g && g[a.id] == a.dependencies && g[b.id] == b.dependencies
    requires Unordered(g, a.id, b.id)
    ensures Concurrent(a, b)
  {
    if b.id in a.dependencies {
      WaitsThrough(g, a.id, b.id, b.id);
    }
    if a.id in b.dependencies {
      WaitsThrough(g, b.id, a.id, a.id);
    }
  }

  ghost predicate Straight(root: seq<string>, tasks: seq<PlanTask>) {
    forall i, k :: 0 <= i < |tasks| && 0 <= k < |tasks[i].writeScope| ==> !Askew(root, tasks[i].writeScope[k].value)
  }

  lemma HiddenIsAskew(root: seq<string>, tasks: seq<PlanTask>, i: nat, j: nat)
    requires i < |tasks| && j < |tasks| && HidesOverlap(root, tasks[i].writeScope, tasks[j].writeScope)
    ensures !Straight(root, tasks)
  {
    var a, b := tasks[i].writeScope, tasks[j].writeScope;
    var m, n :| 0 <= m < |a| && 0 <= n < |b| && Unseen(root, a[m], b[n]);
    UnseenMeansAskew(root, a[m], b[n]);
  }

  /**
   A plan with straight entries cannot race once it passes the check at locking, whatever order and
   whatever parallelism its tasks run with.
   */
  lemma LockedPlansCannotRace(root: seq<string>, tasks: seq<PlanTask>, history: seq<States>, k: nat, i: nat, j: nat)
    requires UniqueIds(tasks) && NoConflicts(tasks) && Straight(root, tasks)
    requires Schedule(TaskGraph.GraphOf(tasks), history) && k < |history|
    ensures !Racing(root, tasks, history[k], i, j)
  {
    if Racing(root, tasks, history[k], i, j) {
      RaceIsHidden(root, tasks, history, k, i, j);
      HiddenIsAskew(root, tasks, i, j);
    }
  }

  ghost predicate CanRace(root: seq<string>, tasks: seq<PlanTask>)
    requires UniqueIds(tasks)
  {
    exists history, k: nat, i: nat, j: nat ::
      Schedule(TaskGraph.GraphOf(tasks), history) && k < |history| && Racing(root, tasks, history[k], i, j)
  }

  lemma StraightCannotRace(root: seq<string>, tasks: seq<PlanTask>)
    requires UniqueIds(tasks) && NoConflicts(tasks)
    ensures Straight(root, tasks) ==> !CanRace(root, tasks)
  {
    if history, k: nat, i: nat, j: nat :|
      Schedule(TaskGraph.GraphOf(tasks), history) && k < |history| && Racing(root, tasks, history[k], i, j) &&
      Straight(root, tasks)
    {
      LockedPlansCannotRace(root, tasks, history, k, i, j);
    }
  }

  /**
   The check compares spellings, not places: a valid plan that passes it can race exactly when two
   unordered tasks have entries of which one lies within the other where they lead, but which do not
   begin with the same component as they are written.
   */
  lemma LockedPlanRacesIff(root: seq<string>, tasks: seq<PlanTask>)
    requires UniqueIds(tasks) && NoConflicts(tasks)
    requires Closed(TaskGraph.GraphOf(tasks)) && Acyclic(TaskGraph.GraphOf(tasks))
    ensures CanRace(root, tasks) <==> exists i: nat, j: nat :: HiddenBesideAnother(root, tasks, i, j)
  {
    if i: nat, j: nat :| HiddenBesideAnother(root, tasks, i, j) {
      var history := HiddenCanRace(root, tasks, i, j);
      assert Racing(root, tasks, history[|history| - 1], i, j);
    }
    if history, k: nat, i: nat, j: nat :|
      Schedule(TaskGraph.GraphOf(tasks), history) && k < |history| && Racing(root, tasks, history[k], i, j)
    {
      RaceIsHidden(root, tasks, history, k, i, j);
    }
  }

  lemma HiddenCanRace(root: seq<string>, tasks: seq<PlanTask>, i: nat, j: nat) returns (history: seq<States>)
    requires UniqueIds(tasks)
    requires Closed(TaskGraph.GraphOf(tasks)) && Acyclic(TaskGraph.GraphOf(tasks))
    requires HiddenBesideAnother(root, tasks, i, j)
    ensures Schedule(TaskGraph.GraphOf(tasks), history) && Racing(root, tasks, history[|history| - 1], i, j)
  {
    var g := TaskGraph.GraphOf(tasks);
    assert tasks[i].id in g && tasks[j].id in g;
    history := CanMeet(g, tasks[i].id, tasks[j].id);
    OverlapOfUnseen(root, tasks[i].writeScope, tasks[j].writeScope);
  }

  // --- plans the check lets through ----------------------------------------------------------------

  function TaskWriting(id: string, path: string): PlanTask {
    PlanTask(TaskId(id), "", RiskLevel.Medium, true, [], [ProjectPath(path)], [], [])
  }

  /** Two tasks with an entry each, neither of which waits for the other. */
  function SideBySide(one: string, other: string): seq<PlanTask> {
    [TaskWriting("a", one), TaskWriting("b", other)]
  }

  lemma SideBySideGraph(one: string, other: string)
    ensures UniqueIds(SideBySide(one, other))
    ensures var g := TaskGraph.GraphOf(SideBySide(one, other));
      && Closed(g) && Acyclic(g) && Unordered(g, TaskId("a"), TaskId("b"))
  {
    assert "a"[0] != "b"[0];
    NothingWaits(TaskGraph.GraphOf(SideBySide(one, other)));
  }

  lemma SideBySideScopes(one: string, other: string)
    requires !InOneDirectory(ProjectPath(one), ProjectPath(other))
    ensures NoConflicts(SideBySide(one, other))
  {
    var tasks := SideBySide(one, other);
    NoConflictsIff(tasks);
    assert !SharesTopLevel(tasks[0].writeScope, tasks[1].writeScope);
  }

  /** Every pair of entries the check does not see makes a valid plan that passes it and races. */
  lemma UnseenPairRaces(root: seq<string>, one: string, other: string) returns (history: seq<States>)
    requires Unseen(root, ProjectPath(one), ProjectPath(other))
    ensures var tasks := SideBySide(one, other);
      && UniqueIds(tasks) && NoConflicts(tasks)
      && Closed(TaskGraph.GraphOf(tasks)) && Acyclic(TaskGraph.GraphOf(tasks))
      && Schedule(TaskGraph.GraphOf(tasks), history) && Racing(root, tasks, history[|history| - 1], 0, 1)
  {
    SideBySideGraph(one, other);
    SideBySideScopes(one, other);
    HidesInPair(root, one, other);
    history := HiddenCanRace(root, SideBySide(one, other), 0, 1);
  }

  lemma HidesInPair(root: seq<string>, one: string, other: string)
    requires Unseen(root, ProjectPath(one), ProjectPath(other))
    ensures var tasks := SideBySide(one, other); HidesOverlap(root, tasks[0].writeScope, tasks[1].writeScope)
  {
    var tasks := SideBySide(one, other);
    assert Unseen(root, tasks[0].writeScope[0], tasks[1].writeScope[0]);
  }

  /**
   Such pairs are the empty path, or a dot, beside any plain entry, and a plain entry beside itself
   with a dot in front.
   */
  lemma UnseenPairs(root: seq<string>, path: string)
    requires root != [] && Plain(path)
    ensures Unseen(root, ProjectPath(""), ProjectPath(path)) && Unseen(root, ProjectPath("."), ProjectPath(path))
    ensures Unseen(root, ProjectPath("./" + path), ProjectPath(path))
  {
    DotResolves(root);
    PlainResolves(root, path);
    assert IsName(Parts(path)[0]);
    FirstPart(path);
    DottedResolves(root, path);
  }

  lemma DottedResolves(root: seq<string>, path: string)
    requires root != [] && Plain(path)
    ensures Resolve(root, "./" + path) == Resolve(root, path) && Parts("./" + path)[0] == "."
  {
    var dotted := "./" + path;
    SplitAfter(".", path);
    assert "." + "/" + path == dotted;
    assert ["."] + Split(path) == Split(dotted) && Split(dotted)[1..] == Split(path);
    assert FullPath(root, dotted) == FullPath(root, path);
    TrimEndLeads(root, dotted);
    assert TrimStart(dotted) == dotted;
  }

  /** And so is a plain entry beside itself with the project's own absolute path in front. */
  lemma AbsoluteUnseen(root: seq<string>, path: string)
    requires root != [] && (forall i :: 0 <= i < |root| ==> IsName(root[i]) && '/' !in root[i]) && Plain(path)
    requires root[0] != Parts(path)[0]
    ensures Unseen(root, ProjectPath("/" + Join(root) + "/" + path), ProjectPath(path))
  {
    AbsoluteResolves(root, path);
    PlainResolves(root, path);
    AbsoluteBegins(root, path);
  }

  lemma NoEdge(g: Graph, a: TaskId, b: TaskId)
    requires forall t :: t in g ==> g[t] == []
    ensures !Edge(g, a, b)
  {
  }

  lemma NothingWaits(g: Graph)
    requires forall t :: t in g ==> g[t] == []
    ensures Closed(g) && Acyclic(g) && forall a, b :: !WaitsFor(g, a, b)
  {
    forall p | IsPath(g, p) ensures |p| == 1 {
      NoEdge(g, p[0], p[if |p| > 1 then 1 else 0]);
    }
  }
}
