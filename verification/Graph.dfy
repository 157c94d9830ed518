/**
 Dependency graphs, and the two views of them every algorithm in the kernel must agree on:
 paths (who reaches whom) and rounds (who can finish after k rounds).
 */
module Graph {
  import opened Domain
  import opened Collections

  /** What each task waits for. A dependency outside the domain is dangling. */
  type Graph = map<TaskId, seq<TaskId>>

  ghost predicate Edge(g: Graph, a: TaskId, b: TaskId) {
    a in g && b in g && b in g[a]
  }

  ghost predicate Closed(g: Graph) {
    forall a, d :: a in g && d in g[a] ==> d in g
  }

  /** A walk along dependencies, from a task down to what it waits for. */
  ghost predicate IsPath(g: Graph, p: seq<TaskId>) {
    && p != []
    && p[0] in g
    && forall i :: 0 < i < |p| ==> Edge(g, p[i - 1], p[i])
  }

  ghost predicate Revisits(p: seq<TaskId>) {
    exists i, j :: 0 <= i < j < |p| && p[i] == p[j]
  }

  /** Some walk from a goes round a cycle. */
  ghost predicate ReachesCycle(g: Graph, a: TaskId) {
    exists p :: IsPath(g, p) && p[0] == a && Revisits(p)
  }

  ghost predicate Acyclic(g: Graph) {
    forall p :: IsPath(g, p) ==> !Revisits(p)
  }

  lemma AcyclicMeansNothingReachesACycle(g: Graph)
    ensures Acyclic(g) <==> forall a :: a in g ==> !ReachesCycle(g, a)
  {
    if p :| IsPath(g, p) && Revisits(p) {
      assert ReachesCycle(g, p[0]);
    }
  }

  // --- rounds ----------------------------------------------------------------

  /**
   The tasks finished after k rounds, where a round finishes every task whose dependencies are
   all finished and none of them in bad. The tasks of bad finish but release nobody.
   */
  ghost function DoneAfter(g: Graph, bad: set<TaskId>, k: nat): (s: set<TaskId>)
    ensures s <= g.Keys
  {
    if k == 0 then {}
    else
      var before := DoneAfter(g, bad, k - 1);
      set t | t in g && forall d :: d in g[t] ==> d in before && d !in bad
  }

  /** The tasks that finish in round k exactly. */
  ghost function Level(g: Graph, bad: set<TaskId>, k: nat): set<TaskId> {
    DoneAfter(g, bad, k + 1) - DoneAfter(g, bad, k)
  }

  lemma {:induction false} DoneGrows(g: Graph, bad: set<TaskId>, k: nat)
    ensures DoneAfter(g, bad, k) <= DoneAfter(g, bad, k + 1)
  {
    if k > 0 {
      DoneGrows(g, bad, k - 1);
    }
  }

  lemma {:induction false} DoneMonotone(g: Graph, bad: set<TaskId>, j: nat, k: nat)
    requires j <= k
    ensures DoneAfter(g, bad, j) <= DoneAfter(g, bad, k)
    decreases k
  {
    if j < k {
      DoneMonotone(g, bad, j, k - 1);
      DoneGrows(g, bad, k - 1);
    }
  }

  /** A round that finishes nobody is the last one. */
  lemma {:induction false} DoneStalls(g: Graph, bad: set<TaskId>, j: nat, k: nat)
    requires j <= k && DoneAfter(g, bad, j + 1) == DoneAfter(g, bad, j)
    ensures DoneAfter(g, bad, k) == DoneAfter(g, bad, j)
    decreases k
  {
    if j < k {
      DoneStalls(g, bad, j, k - 1);
    }
  }

  /** Every round before the last finishes somebody, so there are at most as many as tasks. */
  lemma DoneSettles(g: Graph, bad: set<TaskId>, k: nat)
    ensures DoneAfter(g, bad, k) <= DoneAfter(g, bad, |g|)
    ensures DoneAfter(g, bad, |g| + 1) == DoneAfter(g, bad, |g|)
  {
    var j := StallingRound(g, bad, |g| + 1);
    Subset(DoneAfter(g, bad, |g| + 1), g.Keys);
    assert |g.Keys| == |g|;
    DoneStalls(g, bad, j, |g|);
    DoneStalls(g, bad, j, |g| + 1);
    if k <= |g| {
      DoneMonotone(g, bad, k, |g|);
    } else {
      DoneStalls(g, bad, j, k);
    }
  }

  lemma {:induction false} StallingRound(g: Graph, bad: set<TaskId>, k: nat) returns (j: nat)
    ensures (j < k && DoneAfter(g, bad, j + 1) == DoneAfter(g, bad, j)) || |DoneAfter(g, bad, k)| >= k
  {
    j := 0;
    if k > 0 {
      j := StallingRound(g, bad, k - 1);
      if DoneAfter(g, bad, k) == DoneAfter(g, bad, k - 1) {
        j := k - 1;
      } else {
        DoneGrows(g, bad, k - 1);
        StrictSubset(DoneAfter(g, bad, k - 1), DoneAfter(g, bad, k));
      }
    }
  }

  /** A level that finishes somebody brings the rounds strictly closer to all there is. */
  lemma RoundGrows(g: Graph, bad: set<TaskId>, k: nat)
    ensures DoneAfter(g, bad, k) + Level(g, bad, k) == DoneAfter(g, bad, k + 1)
    ensures |DoneAfter(g, bad, k + 1)| <= |g|
    ensures Level(g, bad, k) != {} ==> |DoneAfter(g, bad, k)| < |DoneAfter(g, bad, k + 1)|
  {
    DoneGrows(g, bad, k);
    Subset(DoneAfter(g, bad, k + 1), g.Keys);
    assert |g.Keys| == |g|;
    if Level(g, bad, k) != {} {
      StrictSubset(DoneAfter(g, bad, k), DoneAfter(g, bad, k + 1));
    }
  }

  /** After an empty level nobody else ever finishes. */
  lemma EmptyLevelIsTheLast(g: Graph, bad: set<TaskId>, k: nat)
    requires Level(g, bad, k) == {}
    ensures DoneAfter(g, bad, k) == DoneAfter(g, bad, |g|)
  {
    RoundGrows(g, bad, k);
    DoneSettles(g, bad, k);
    if k <= |g| {
      DoneStalls(g, bad, k, |g|);
    } else {
      DoneMonotone(g, bad, |g|, k);
    }
  }

  // --- rounds are chain lengths ------------------------------------------------

  /** A task not finished after k rounds starts a chain of more than k tasks. */
  lemma {:induction false} ChainOf(g: Graph, t: TaskId, k: nat) returns (p: seq<TaskId>)
    requires Closed(g) && t in g && t !in DoneAfter(g, {}, k)
    ensures IsPath(g, p) && p[0] == t && |p| == k + 1
    decreases k
  {
    if k == 0 {
      p := [t];
    } else {
      var d :| d in g[t] && d !in DoneAfter(g, {}, k - 1);
      var rest := ChainOf(g, d, k - 1);
      p := [t] + rest;
    }
  }

  lemma {:induction false} ChainBound(g: Graph, p: seq<TaskId>, k: nat)
    requires IsPath(g, p) && p[0] in DoneAfter(g, {}, k)
    ensures |p| <= k
    decreases k
  {
    if |p| > 1 {
      assert Edge(g, p[0], p[1]);
      assert IsPath(g, p[1..]) by {
        forall i | 0 < i < |p[1..]| ensures Edge(g, p[1..][i - 1], p[1..][i]) {
          assert Edge(g, p[i], p[i + 1]);
        }
      }
      ChainBound(g, p[1..], k - 1);
    }
  }

  /** Finishing within k rounds means: no chain of dependencies starting here is longer than k. */
  lemma DoneIffChainsAreShort(g: Graph, t: TaskId, k: nat)
    requires Closed(g) && t in g
    ensures t in DoneAfter(g, {}, k) <==> forall p :: IsPath(g, p) && p[0] == t ==> |p| <= k
  {
    if t in DoneAfter(g, {}, k) {
      forall p | IsPath(g, p) && p[0] == t ensures |p| <= k {
        ChainBound(g, p, k);
      }
    } else {
      var p := ChainOf(g, t, k);
    }
  }

  // --- acyclic means the rounds finish everybody -----------------------------------

  lemma {:induction false} Pigeonhole(p: seq<TaskId>, s: set<TaskId>)
    requires forall i :: 0 <= i < |p| ==> p[i] in s
    requires |p| > |s|
    ensures Revisits(p)
    decreases |p|
  {
    var last := p[|p| - 1];
    var init := p[..|p| - 1];
    if i :| 0 <= i < |init| && init[i] == last {
      assert p[i] == p[|p| - 1];
    } else {
      assert |s - {last}| == |s| - 1;
      Pigeonhole(init, s - {last});
      var i, j :| 0 <= i < j < |init| && init[i] == init[j];
      assert p[i] == p[j];
    }
  }

  lemma PathStaysInside(g: Graph, p: seq<TaskId>)
    requires IsPath(g, p)
    ensures forall i :: 0 <= i < |p| ==> p[i] in g
  {
    forall i | 0 <= i < |p| ensures p[i] in g {
      if i > 0 {
        assert Edge(g, p[i - 1], p[i]);
      }
    }
  }

  lemma DropPrefix(g: Graph, p: seq<TaskId>, i: nat)
    requires IsPath(g, p) && i < |p|
    ensures IsPath(g, p[i..])
  {
    PathStaysInside(g, p);
    forall k | 0 < k < |p[i..]| ensures Edge(g, p[i..][k - 1], p[i..][k]) {
      assert Edge(g, p[i + k - 1], p[i + k]);
    }
  }

  /** No task on a walk that comes back to an earlier task ever finishes. */
  lemma {:induction false} CycleNeverFinishes(g: Graph, p: seq<TaskId>, i: nat, j: nat, m: nat, k: nat)
    requires IsPath(g, p) && i < j < |p| && p[i] == p[j] && m <= j
    ensures p[m] !in DoneAfter(g, {}, k)
    decreases k
  {
    if k > 0 {
      var next := if m == j then i + 1 else m + 1;
      assert Edge(g, p[next - 1], p[next]);
      CycleNeverFinishes(g, p, i, j, next, k - 1);
    }
  }

  /** Every task finishes if and only if nothing dangles and there is no cycle. */
  lemma FinishIffAcyclic(g: Graph)
    ensures DoneAfter(g, {}, |g|) == g.Keys <==> Closed(g) && Acyclic(g)
  {
    if Closed(g) && Acyclic(g) {
      forall t | t in g ensures t in DoneAfter(g, {}, |g|) {
        if t !in DoneAfter(g, {}, |g|) {
          var p := ChainOf(g, t, |g|);
          PathStaysInside(g, p);
          assert |g.Keys| == |g|;
          Pigeonhole(p, g.Keys);
        }
      }
    }
    if DoneAfter(g, {}, |g|) == g.Keys {
      DoneSettles(g, {}, |g|);
      if p :| IsPath(g, p) && Revisits(p) {
        var i, j :| 0 <= i < j < |p| && p[i] == p[j];
        CycleNeverFinishes(g, p, i, j, 0, |g|);
      }
    }
  }

  // --- what one round adds -------------------------------------------------------

  /** A level past the first is never reached over an empty one. */
  lemma LevelsHaveNoGaps(g: Graph, bad: set<TaskId>, j: nat, k: nat)
    requires j <= k && Level(g, bad, k) != {}
    ensures Level(g, bad, j) != {}
  {
    if Level(g, bad, j) == {} {
      DoneGrows(g, bad, j);
      assert forall t :: t in DoneAfter(g, bad, j + 1) && t !in DoneAfter(g, bad, j) ==> t in Level(g, bad, j);
      DoneStalls(g, bad, j, k);
    }
  }

  lemma LevelUnique(g: Graph, bad: set<TaskId>, t: TaskId, j: nat, k: nat)
    requires t in Level(g, bad, j) && t in Level(g, bad, k)
    ensures j == k
  {
    if j < k {
      DoneMonotone(g, bad, j + 1, k);
    } else if k < j {
      DoneMonotone(g, bad, k + 1, j);
    }
  }
}
