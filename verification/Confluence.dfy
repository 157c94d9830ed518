/**
 What running a task graph must come to, told without any order of execution, and the proof that
 the rounds of the engine come to exactly that.
 */
module Confluence {
  import opened Wrappers
  import opened Domain
  import opened Graph
  import opened Scheduler

  /** Ways a task that ran can end. */
  predicate Ended(state: TaskState) {
    state == TaskState.Succeeded || state == TaskState.Failed || state == TaskState.Cancelled
  }

  ghost predicate Ends(g: Graph, result: TaskId -> TaskState) {
    forall t :: t in g ==> Ended(result(t))
  }

  ghost predicate AllSucceeded(dependencies: seq<TaskId>, states: map<TaskId, TaskState>) {
    forall d :: d in dependencies ==> d in states && states[d] == TaskState.Succeeded
  }

  /** The recursive specification: a task ends as the runner says once its dependencies succeeded. */
  ghost predicate Solves(g: Graph, result: TaskId -> TaskState, states: map<TaskId, TaskState>) {
    && states.Keys == g.Keys
    && forall t {:trigger SolvesAt(g, result, states, t)} :: t in g ==> SolvesAt(g, result, states, t)
  }

  ghost predicate SolvesAt(g: Graph, result: TaskId -> TaskState, states: map<TaskId, TaskState>, t: TaskId)
    requires t in g && t in states
  {
    states[t] == if AllSucceeded(g[t], states) then result(t) else TaskState.Planned
  }

  ghost function Unreleasing(g: Graph, result: TaskId -> TaskState): set<TaskId> {
    set t | t in g && result(t) != TaskState.Succeeded
  }

  /** The states after k rounds. */
  ghost function StatesAfter(g: Graph, result: TaskId -> TaskState, k: nat): map<TaskId, TaskState> {
    map t | t in g :: if t in DoneAfter(g, Unreleasing(g, result), k) then result(t) else TaskState.Planned
  }

  /** The states once no round changes anything any more. */
  ghost function Settled(g: Graph, result: TaskId -> TaskState): map<TaskId, TaskState> {
    StatesAfter(g, result, |g|)
  }

  lemma SettledSolves(g: Graph, result: TaskId -> TaskState)
    ensures Solves(g, result, Settled(g, result))
  {
    var bad := Unreleasing(g, result);
    var done := DoneAfter(g, bad, |g|);
    var states := Settled(g, result);
    DoneSettles(g, bad, |g|);
    forall t | t in g ensures SolvesAt(g, result, states, t) {
      assert t in DoneAfter(g, bad, |g| + 1) <==> forall d :: d in g[t] ==> d in done && d !in bad;
      if t in done {
        forall d | d in g[t] ensures d in states && states[d] == TaskState.Succeeded {
          assert d in g && d !in bad;
        }
      } else {
        var d :| d in g[t] && !(d in done && d !in bad);
        assert !(d in states && states[d] == TaskState.Succeeded);
      }
    }
  }

  lemma {:induction false} SolutionsAgree(g: Graph, result: TaskId -> TaskState, a: map<TaskId, TaskState>,
      b: map<TaskId, TaskState>, k: nat, t: TaskId)
    requires Solves(g, result, a) && Solves(g, result, b)
    requires t in DoneAfter(g, {}, k)
    ensures t in a && t in b && a[t] == b[t]
    decreases k
  {
    forall d | d in g[t] ensures d in a && d in b && a[d] == b[d] {
      SolutionsAgree(g, result, a, b, k - 1, d);
    }
    assert SolvesAt(g, result, a, t) && SolvesAt(g, result, b, t);
    assert AllSucceeded(g[t], a) <==> AllSucceeded(g[t], b);
  }

  /** Whatever order the tasks ran in, an acyclic graph can come to only one thing. */
  lemma Confluent(g: Graph, result: TaskId -> TaskState, states: map<TaskId, TaskState>)
    requires Closed(g) && Acyclic(g)
    ensures Solves(g, result, states) <==> states == Settled(g, result)
  {
    SettledSolves(g, result);
    if Solves(g, result, states) {
      FinishIffAcyclic(g);
      forall t | t in g ensures states[t] == Settled(g, result)[t] {
        SolutionsAgree(g, result, states, Settled(g, result), |g|, t);
      }
    }
  }

  // --- the verdict ---------------------------------------------------------------------------

  /** While nothing has failed or been cancelled, everything within reach has succeeded. */
  lemma {:induction false} SuccessSpreads(g: Graph, result: TaskId -> TaskState, states: map<TaskId, TaskState>, k: nat,
      t: TaskId)
    requires Solves(g, result, states) && Ends(g, result)
    requires TaskState.Failed !in states.Values && TaskState.Cancelled !in states.Values
    requires t in DoneAfter(g, {}, k)
    ensures t in states && states[t] == TaskState.Succeeded
    decreases k
  {
    forall d | d in g[t] ensures d in states && states[d] == TaskState.Succeeded {
      SuccessSpreads(g, result, states, k - 1, d);
    }
    assert SolvesAt(g, result, states, t);
    assert states[t] in states.Values;
  }

  /** Where a run goes for these final states of its tasks, when there are any. */
  ghost function VerdictIn(states: map<TaskId, TaskState>): RunState {
    if exists t :: t in states && states[t] == TaskState.Failed then RunState.Failed
    else if forall t :: t in states ==> states[t] == TaskState.Succeeded then RunState.Verifying
    else RunState.Cancelled
  }

  lemma VerifyingIsAll(states: map<TaskId, TaskState>, t: TaskId)
    requires VerdictIn(states) == RunState.Verifying && t in states
    ensures states[t] == TaskState.Succeeded
  {
  }

  /** A non-empty valid graph always reaches a verdict, and which one only the outcomes decide. */
  lemma VerdictOf(g: Graph, result: TaskId -> TaskState, states: map<TaskId, TaskState>)
    requires Closed(g) && Acyclic(g) && g != map[]
    requires Solves(g, result, states) && Ends(g, result)
    ensures Verdict(states.Values) == Some(VerdictIn(states))
  {
    var some :| some in g;
    assert states[some] in states.Values;
    if TaskState.Failed !in states.Values {
      assert forall t :: t in states ==> states[t] in states.Values;
      if TaskState.Cancelled !in states.Values {
        FinishIffAcyclic(g);
        forall t | t in g ensures states[t] == TaskState.Succeeded {
          SuccessSpreads(g, result, states, |g|, t);
        }
      } else {
        var t :| t in states && states[t] == TaskState.Cancelled;
      }
    } else {
      var t :| t in states && states[t] == TaskState.Failed;
    }
  }

  /** Nothing but success, and still no verdict: what is on a cycle, or behind one, stays Planned. */
  lemma StuckWithoutFailing(g: Graph, result: TaskId -> TaskState)
    requires Closed(g) && (g == map[] || !Acyclic(g))
    requires forall t :: t in g ==> result(t) == TaskState.Succeeded
    ensures Verdict(Settled(g, result).Values).None?
  {
    var states := Settled(g, result);
    assert Unreleasing(g, result) == {};
    if g == map[] {
      assert states.Values == {};
    } else {
      FinishIffAcyclic(g);
      var t :| t in g && t !in DoneAfter(g, {}, |g|);
      assert states[t] == TaskState.Planned && states[t] in states.Values;
      assert forall s :: s in states.Values ==> s == TaskState.Succeeded || s == TaskState.Planned;
    }
  }

  /**
   A run over a graph where nothing dangles leaves Running whatever the runner does if and only if
   there is a task and no cycle.
   */
  lemma AlwaysLeavesRunningIff(g: Graph)
    requires Closed(g)
    ensures (forall result :: Ends(g, result) ==> Verdict(Settled(g, result).Values).Some?)
            <==> g != map[] && Acyclic(g)
  {
    if g != map[] && Acyclic(g) {
      forall result | Ends(g, result) ensures Verdict(Settled(g, result).Values).Some? {
        SettledSolves(g, result);
        VerdictOf(g, result, Settled(g, result));
      }
    } else {
      var success: TaskId -> TaskState := t => TaskState.Succeeded;
      StuckWithoutFailing(g, success);
      assert Ends(g, success) && Verdict(Settled(g, success).Values).None?;
    }
  }

  // --- renaming ---------------------------------------------------------------------------------

  /** h is g with every task renamed by f, dependencies in the same order. */
  ghost predicate Renames(f: map<TaskId, TaskId>, g: Graph, h: Graph) {
    && f.Keys == g.Keys
    && f.Values == h.Keys
    && OneToOne(f)
    && (forall a {:trigger RenamedAt(f, g, h, a)} :: a in g ==> RenamedAt(f, g, h, a))
  }

  ghost predicate OneToOne(f: map<TaskId, TaskId>) {
    forall a, b :: a in f && b in f && f[a] == f[b] ==> a == b
  }

  ghost predicate RenamedAt(f: map<TaskId, TaskId>, g: Graph, h: Graph, a: TaskId)
    requires a in g
  {
    && a in f && f[a] in h
    && |h[f[a]]| == |g[a]|
    && forall i :: 0 <= i < |g[a]| ==> g[a][i] in f && h[f[a]][i] == f[g[a][i]]
  }

  /** The rounds of the renamed graph are the renamed rounds. */
  lemma {:induction false} RoundsRename(f: map<TaskId, TaskId>, g: Graph, h: Graph, bad: set<TaskId>,
                                        wrong: set<TaskId>, k: nat, a: TaskId)
    requires Renames(f, g, h) && a in g
    requires forall b :: b in g ==> (b in bad <==> f[b] in wrong)
    ensures a in DoneAfter(g, bad, k) <==> f[a] in DoneAfter(h, wrong, k)
    decreases k
  {
    assert RenamedAt(f, g, h, a);
    if k > 0 {
      forall i | 0 <= i < |g[a]|
        ensures g[a][i] in DoneAfter(g, bad, k - 1) && g[a][i] !in bad <==>
                h[f[a]][i] in DoneAfter(h, wrong, k - 1) && h[f[a]][i] !in wrong
      {
        RoundsRename(f, g, h, bad, wrong, k - 1, g[a][i]);
      }
    }
  }

  ghost function Image(f: map<TaskId, TaskId>, keys: set<TaskId>): set<TaskId>
    requires keys <= f.Keys
  {
    set a | a in keys :: f[a]
  }

  lemma {:induction false} ImageSize(f: map<TaskId, TaskId>, keys: set<TaskId>)
    requires keys <= f.Keys && OneToOne(f)
    ensures |Image(f, keys)| == |keys|
    decreases |keys|
  {
    if keys != {} {
      var a :| a in keys;
      ImageSize(f, keys - {a});
      assert Image(f, keys) == Image(f, keys - {a}) + {f[a]};
    }
  }

  /** So the renamed tasks settle as the tasks they stand for. */
  lemma SettledRenames(f: map<TaskId, TaskId>, g: Graph, h: Graph, result: TaskId -> TaskState,
                       renamed: TaskId -> TaskState, a: TaskId)
    requires Renames(f, g, h) && a in g
    requires forall b :: b in g ==> result(b) == renamed(f[b])
    ensures f[a] in h && Settled(h, renamed)[f[a]] == Settled(g, result)[a]
  {
    ImageSize(f, f.Keys);
    assert f.Values == Image(f, f.Keys);
    assert |h| == |h.Keys| && |g| == |g.Keys| && |f| == |f.Keys|;
    assert RenamedAt(f, g, h, a);
    RoundsRename(f, g, h, Unreleasing(g, result), Unreleasing(h, renamed), |g|, a);
  }
}
