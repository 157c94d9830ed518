/**
 First-fit batches of ready tasks, and how far they are safe to run side by side
 (WorktreePolicy.can_coexist, partition_parallel_safe, GoalRunner._parallel_batches).
 */
module ParallelBatches {
  import opened Wrappers
  import opened Domain
  import opened Collections
  import opened Paths

  // --- two scopes --------------------------------------------------------------------------

  /** One entry lies at or beneath the other, component by component. */
  ghost predicate Nested(a: string, b: string) {
    Parts(a) <= Parts(b) || Parts(b) <= Parts(a)
  }

  ghost predicate Coexist(a: seq<string>, b: seq<string>) {
    forall i, j :: 0 <= i < |a| && 0 <= j < |b| ==> !Nested(a[i], b[j])
  }

  method CanCoexist(a: seq<string>, b: seq<string>) returns (ok: bool)
    ensures ok <==> Coexist(a, b)
  {
    for i := 0 to |a|
      invariant forall k, j :: 0 <= k < i && 0 <= j < |b| ==> !Nested(a[k], b[j])
    {
      for j := 0 to |b|
        invariant forall l :: 0 <= l < j ==> !Nested(a[i], b[l])
      {
        var left, right := Parts(a[i]), Parts(b[j]);
        var common := CountCommon(left, right);
        NestedIff(left, right);
        if common > 0 && common == Min(|left|, |right|) {
          return false;
        }
      }
    }
    return true;
  }

  method CountCommon(left: seq<string>, right: seq<string>) returns (common: nat)
    ensures common == Common(left, right)
  {
    common := 0;
    while common < |left| && common < |right| && left[common] == right[common]
      invariant common <= |left| && common <= |right| && left[..common] == right[..common]
    {
      common := common + 1;
    }
    CommonUnique(left, right, common);
  }

  function Min(a: int, b: int): int {
    if a < b then a else b
  }

  lemma NestedIff(left: seq<string>, right: seq<string>)
    ensures Common(left, right) == Min(|left|, |right|) <==> left <= right || right <= left
  {
    CommonIsLongest(left, right);
    if left <= right {
      assert left[..|left|] == right[..|left|];
      CommonUnique(left, right, |left|);
    } else if right <= left {
      assert left[..|right|] == right[..|right|];
      CommonUnique(left, right, |right|);
    }
  }

  /** Two entries lie within one another once resolved, but not as they are cut. */
  ghost predicate Hidden(root: seq<string>, a: seq<string>, b: seq<string>) {
    exists i, j :: 0 <= i < |a| && 0 <= j < |b| && HiddenPair(root, a[i], b[j])
  }

  ghost predicate HiddenPair(root: seq<string>, a: string, b: string) {
    Collide(root, a, b) && !Nested(a, b)
  }

  predicate AllPlain(scope: seq<string>) {
    forall i :: 0 <= i < |scope| ==> Plain(scope[i])
  }

  /** No entry starts with a slash or climbs. */
  predicate AllSteady(scope: seq<string>) {
    forall i :: 0 <= i < |scope| ==> Steady(scope[i])
  }

  predicate Steady(path: string) {
    !IsAbsolute(path) && NoClimb(Parts(path))
  }

  /**
   Scopes that can coexist own a common file exactly through entries whose spelling hides that one
   lies within the other. Scopes that cannot coexist do own a common file, unless an entry starts with
   a slash or climbs. Of plain entries none hides anything.
   */
  lemma OverlapIff(root: seq<string>, a: seq<string>, b: seq<string>)
    ensures Coexist(a, b) ==> (Overlapping(root, a, b) <==> Hidden(root, a, b))
    ensures root != [] && AllSteady(a) && AllSteady(b) ==>
      (Overlapping(root, a, b) <==> !Coexist(a, b) || Hidden(root, a, b))
    ensures root != [] && AllPlain(a) && AllPlain(b) ==> (Overlapping(root, a, b) <==> !Coexist(a, b))
  {
    OverlappingIff(root, a, b);
    if i, j :| 0 <= i < |a| && 0 <= j < |b| && Collide(root, a[i], b[j]) && !Nested(a[i], b[j]) {
      assert HiddenPair(root, a[i], b[j]);
      if Plain(a[i]) && Plain(b[j]) {
        PlainHidesNothing(root, a[i], b[j]);
      }
    }
    if root != [] && AllSteady(a) && AllSteady(b) && !Coexist(a, b) {
      var i, j :| 0 <= i < |a| && 0 <= j < |b| && Nested(a[i], b[j]);
      NestedCollide(root, a[i], b[j]);
    }
  }

  lemma PlainHidesNothing(root: seq<string>, a: string, b: string)
    requires Plain(a) && Plain(b)
    ensures !HiddenPair(root, a, b)
  {
    PlainResolves(root, a);
    PlainResolves(root, b);
  }

  lemma NestedCollide(root: seq<string>, a: string, b: string)
    requires root != [] && Steady(a) && Steady(b) && Nested(a, b)
    ensures Collide(root, a, b)
  {
    if Parts(a) <= Parts(b) {
      DeeperIsWithin(root, a, b);
    } else {
      DeeperIsWithin(root, b, a);
    }
  }

  lemma DeeperIsWithin(root: seq<string>, a: string, b: string)
    requires root != [] && Steady(a) && Steady(b) && Parts(a) <= Parts(b)
    ensures Collide(root, a, b)
  {
    FullPathOfParts(root, a);
    FullPathOfParts(root, b);
    var more := Parts(b)[|Parts(a)|..];
    assert Parts(b) == Parts(a) + more;
    WalkOn(root, Parts(a), more);
    WalkDown(root, Parts(a));
    WalkDown(FullPath(root, a), more);
  }

  // --- first fit -------------------------------------------------------------------------------

  type Scopes = map<TaskId, seq<string>>

  /** A batch may take the task: it has room, and everything in it can coexist with the task. */
  ghost predicate Fits(batch: seq<TaskId>, task: TaskId, scopes: Scopes, limit: Option<nat>) {
    && (limit.Some? ==> |batch| < limit.value)
    && forall k :: 0 <= k < |batch| ==> CoexistIn(task, batch[k], scopes)
  }

  ghost predicate CoexistIn(a: TaskId, b: TaskId, scopes: Scopes) {
    a in scopes && b in scopes && Coexist(scopes[a], scopes[b])
  }

  ghost function Put(batches: seq<seq<TaskId>>, task: TaskId, scopes: Scopes,
                     limit: Option<nat>): (after: seq<seq<TaskId>>) {
    if batches == [] then [[task]]
    else if Fits(batches[0], task, scopes, limit) then [batches[0] + [task]] + batches[1..]
    else [batches[0]] + Put(batches[1..], task, scopes, limit)
  }

  ghost function FirstFit(tasks: seq<TaskId>, scopes: Scopes, limit: Option<nat>): seq<seq<TaskId>> {
    if tasks == [] then [] else Put(FirstFit(tasks[..|tasks| - 1], scopes, limit), tasks[|tasks| - 1], scopes, limit)
  }

  method FitsIn(batch: seq<TaskId>, task: TaskId, scopes: Scopes, limit: Option<nat>) returns (fits: bool)
    requires task in scopes && forall k :: 0 <= k < |batch| ==> batch[k] in scopes
    ensures fits <==> Fits(batch, task, scopes, limit)
  {
    if limit.Some? && |batch| >= limit.value {
      return false;
    }
    for k := 0 to |batch|
      invariant forall l :: 0 <= l < k ==> CoexistIn(task, batch[l], scopes)
    {
      var ok := CanCoexist(scopes[task], scopes[batch[k]]);
      if !ok {
        return false;
      }
    }
    return true;
  }

  ghost predicate AllIn(batches: seq<seq<TaskId>>, scopes: Scopes) {
    forall i, k :: 0 <= i < |batches| && 0 <= k < |batches[i]| ==> batches[i][k] in scopes
  }

  method Place(batches: seq<seq<TaskId>>, task: TaskId, scopes: Scopes, limit: Option<nat>)
    returns (after: seq<seq<TaskId>>)
    requires task in scopes && AllIn(batches, scopes)
    ensures after == Put(batches, task, scopes, limit) && AllIn(after, scopes)
  {
    for i := 0 to |batches|
      invariant Put(batches, task, scopes, limit) == batches[..i] + Put(batches[i..], task, scopes, limit)
    {
      var fits := FitsIn(batches[i], task, scopes, limit);
      PutStep(batches, i, task, scopes, limit);
      if fits {
        return batches[i := batches[i] + [task]];
      }
    }
    assert batches[|batches|..] == [];
    assert batches[..|batches|] == batches;
    return batches + [[task]];
  }

  lemma PutStep(batches: seq<seq<TaskId>>, i: nat, task: TaskId, scopes: Scopes, limit: Option<nat>)
    requires i < |batches|
    ensures Fits(batches[i], task, scopes, limit) ==>
      batches[..i] + Put(batches[i..], task, scopes, limit) == batches[i := batches[i] + [task]]
    ensures !Fits(batches[i], task, scopes, limit) ==>
      batches[..i] + Put(batches[i..], task, scopes, limit) ==
      batches[..i + 1] + Put(batches[i + 1..], task, scopes, limit)
  {
    var rest := batches[i..];
    assert rest[0] == batches[i] && rest[1..] == batches[i + 1..];
    assert batches[..i + 1] == batches[..i] + [batches[i]];
    if Fits(batches[i], task, scopes, limit) {
      assert Put(rest, task, scopes, limit) == [batches[i] + [task]] + batches[i + 1..];
    } else {
      assert Put(rest, task, scopes, limit) == [batches[i]] + Put(batches[i + 1..], task, scopes, limit);
    }
  }

  /** First fit without a limit. */
  method PartitionParallelSafe(tasks: seq<TaskId>, scopes: Scopes) returns (batches: seq<seq<TaskId>>)
    requires forall k :: 0 <= k < |tasks| ==> tasks[k] in scopes
    ensures batches == FirstFit(tasks, scopes, None)
  {
    batches := PlaceAll(tasks, scopes, None);
  }

  /** First fit with a limit, which is at least one. */
  method ParallelBatchesOf(ready: seq<TaskId>, scopes: Scopes, maxParallelTasks: int)
    returns (batches: seq<seq<TaskId>>)
    requires forall k :: 0 <= k < |ready| ==> ready[k] in scopes
    ensures batches == FirstFit(ready, scopes, Some(LimitOf(maxParallelTasks)))
  {
    batches := PlaceAll(ready, scopes, Some(LimitOf(maxParallelTasks)));
  }

  function LimitOf(maxParallelTasks: int): (limit: nat)
    ensures limit >= 1 && limit >= maxParallelTasks && (limit == 1 || limit == maxParallelTasks)
  {
    if maxParallelTasks < 1 then 1 else maxParallelTasks
  }

  method PlaceAll(tasks: seq<TaskId>, scopes: Scopes, limit: Option<nat>) returns (batches: seq<seq<TaskId>>)
    requires forall k :: 0 <= k < |tasks| ==> tasks[k] in scopes
    ensures batches == FirstFit(tasks, scopes, limit)
  {
    batches := [];
    for i := 0 to |tasks|
      invariant batches == FirstFit(tasks[..i], scopes, limit) && AllIn(batches, scopes)
    {
      assert tasks[..i + 1][..i] == tasks[..i];
      batches := Place(batches, tasks[i], scopes, limit);
    }
    assert tasks[..|tasks|] == tasks;
  }

  // --- safe and complete -----------------------------------------------------------------------------

  ghost predicate SafeBatch(batch: seq<TaskId>, scopes: Scopes, limit: Option<nat>) {
    && batch != [] && (limit.Some? ==> |batch| <= limit.value)
    && forall i, j :: 0 <= i < j < |batch| ==> CoexistIn(batch[j], batch[i], scopes)
  }

  ghost predicate SafeBatches(batches: seq<seq<TaskId>>, scopes: Scopes, limit: Option<nat>) {
    forall i :: 0 <= i < |batches| ==> SafeBatch(batches[i], scopes, limit)
  }

  /** Every batch before a task's own is full, or holds a task it cannot coexist with. */
  ghost predicate Tight(batches: seq<seq<TaskId>>, scopes: Scopes, limit: Option<nat>) {
    forall i, j, k :: 0 <= i < j < |batches| && 0 <= k < |batches[j]| ==>
      !Fits(batches[i], batches[j][k], scopes, limit)
  }

  lemma {:induction false} PutIsSafe(batches: seq<seq<TaskId>>, task: TaskId, scopes: Scopes, limit: Option<nat>)
    requires SafeBatches(batches, scopes, limit) && (limit.Some? ==> limit.value >= 1)
    ensures SafeBatches(Put(batches, task, scopes, limit), scopes, limit)
  {
    if batches != [] {
      PutIsSafe(batches[1..], task, scopes, limit);
      if Fits(batches[0], task, scopes, limit) {
        assert SafeBatch(batches[0], scopes, limit);
        assert SafeBatch(batches[0] + [task], scopes, limit);
      }
    }
  }

  lemma {:induction false} PutKeepsTasks(batches: seq<seq<TaskId>>, task: TaskId, scopes: Scopes, limit: Option<nat>)
    ensures multiset(Concat(Put(batches, task, scopes, limit))) == multiset(Concat(batches)) + multiset{task}
  {
    if batches != [] {
      PutKeepsTasks(batches[1..], task, scopes, limit);
      if Fits(batches[0], task, scopes, limit) {
        assert ([batches[0] + [task]] + batches[1..])[1..] == batches[1..];
      } else {
        assert ([batches[0]] + Put(batches[1..], task, scopes, limit))[1..] == Put(batches[1..], task, scopes, limit);
      }
    }
  }

  lemma GrownRefuses(batch: seq<TaskId>, more: TaskId, task: TaskId, scopes: Scopes, limit: Option<nat>)
    requires !Fits(batch, task, scopes, limit)
    ensures !Fits(batch + [more], task, scopes, limit)
  {
    if forall k :: 0 <= k < |batch + [more]| ==> CoexistIn(task, (batch + [more])[k], scopes) {
      assert forall k :: 0 <= k < |batch| ==> batch[k] == (batch + [more])[k];
    }
  }

  /** The task joins the first batch that fits, behind only batches that do not. */
  lemma {:induction false} PutPlace(batches: seq<seq<TaskId>>, task: TaskId, scopes: Scopes, limit: Option<nat>)
    returns (at: nat)
    ensures at <= |batches| && forall i :: 0 <= i < at ==> !Fits(batches[i], task, scopes, limit)
    ensures Put(batches, task, scopes, limit) ==
      if at == |batches| then batches + [[task]] else batches[at := batches[at] + [task]]
  {
    if batches == [] || Fits(batches[0], task, scopes, limit) {
      at := 0;
    } else {
      at := PutPlace(batches[1..], task, scopes, limit);
      at := at + 1;
    }
  }

  lemma PutIsTight(batches: seq<seq<TaskId>>, task: TaskId, scopes: Scopes, limit: Option<nat>)
    requires Tight(batches, scopes, limit)
    ensures Tight(Put(batches, task, scopes, limit), scopes, limit)
  {
    var at := PutPlace(batches, task, scopes, limit);
    var after := Put(batches, task, scopes, limit);
    forall i, j, k | 0 <= i < j < |after| && 0 <= k < |after[j]| ensures !Fits(after[i], after[j][k], scopes, limit) {
      if j == at && (j == |batches| || k == |batches[j]|) {
        assert after[j][k] == task && after[i] == batches[i];
      } else {
        assert after[j][k] == batches[j][k] && !Fits(batches[i], batches[j][k], scopes, limit);
        if i == at {
          GrownRefuses(batches[i], task, batches[j][k], scopes, limit);
        }
      }
    }
  }

  /**
   The batches hold exactly the ready tasks; none is empty or over the limit, any two tasks of one
   can coexist, and no task was put further back than it had to be.
   */
  lemma {:induction false} FirstFitIsSafe(tasks: seq<TaskId>, scopes: Scopes, limit: Option<nat>)
    requires limit.Some? ==> limit.value >= 1
    ensures Groups(FirstFit(tasks, scopes, limit), tasks, scopes, limit)
  {
    if tasks != [] {
      var init, last := tasks[..|tasks| - 1], tasks[|tasks| - 1];
      var before := FirstFit(init, scopes, limit);
      assert tasks == init + [last];
      assert Groups(before, init, scopes, limit) by { FirstFitIsSafe(init, scopes, limit); }
      assert Groups(Put(before, last, scopes, limit), tasks, scopes, limit) by {
        PutGroups(before, init, last, scopes, limit);
      }
    }
  }

  ghost predicate Groups(batches: seq<seq<TaskId>>, tasks: seq<TaskId>, scopes: Scopes, limit: Option<nat>) {
    && multiset(Concat(batches)) == multiset(tasks)
    && SafeBatches(batches, scopes, limit)
    && Tight(batches, scopes, limit)
  }

  lemma PutGroups(batches: seq<seq<TaskId>>, tasks: seq<TaskId>, last: TaskId, scopes: Scopes, limit: Option<nat>)
    requires Groups(batches, tasks, scopes, limit) && (limit.Some? ==> limit.value >= 1)
    ensures Groups(Put(batches, last, scopes, limit), tasks + [last], scopes, limit)
  {
    PutIsSafe(batches, last, scopes, limit);
    PutKeepsTasks(batches, last, scopes, limit);
    PutIsTight(batches, last, scopes, limit);
  }

  /** Tasks of one batch own a common file exactly through a spelling that hides it, so never with plain entries. */
  lemma BatchesShareNoFile(root: seq<string>, tasks: seq<TaskId>, scopes: Scopes, limit: Option<nat>,
                           b: nat, i: nat, j: nat)
    requires limit.Some? ==> limit.value >= 1
    requires b < |FirstFit(tasks, scopes, limit)| && i < j < |FirstFit(tasks, scopes, limit)[b]|
    ensures var batch := FirstFit(tasks, scopes, limit)[b];
      && batch[i] in scopes && batch[j] in scopes
      && var one, other := scopes[batch[j]], scopes[batch[i]];
         && (Overlapping(root, one, other) <==> Hidden(root, one, other))
         && (AllPlain(one) && AllPlain(other) ==> !Overlapping(root, one, other))
  {
    FirstFitIsSafe(tasks, scopes, limit);
    var batch := FirstFit(tasks, scopes, limit)[b];
    assert SafeBatch(batch, scopes, limit) && CoexistIn(batch[j], batch[i], scopes);
    var one, other := scopes[batch[j]], scopes[batch[i]];
    OverlapIff(root, one, other);
    if AllPlain(one) && AllPlain(other) && Hidden(root, one, other) {
      var k, l :| 0 <= k < |one| && 0 <= l < |other| && HiddenPair(root, one[k], other[l]);
      PlainHidesNothing(root, one[k], other[l]);
    }
  }

  // --- spellings ----------------------------------------------------------------------------------------

  lemma OnePairHides(root: seq<string>, a: string, b: string)
    requires HiddenPair(root, a, b)
    ensures Coexist([a], [b]) && Overlapping(root, [a], [b])
  {
    assert HiddenPair(root, [a][0], [b][0]);
    OverlapIff(root, [a], [b]);
  }

  /** The empty path and a dot name the root, and yet coexist with every plain entry. */
  lemma RootHides(root: seq<string>, path: string)
    requires root != [] && Plain(path)
    ensures Coexist([""], [path]) && Overlapping(root, [""], [path])
    ensures Coexist(["."], [path]) && Overlapping(root, ["."], [path])
  {
    DotResolves(root);
    PlainResolves(root, path);
    assert IsName(Parts(path)[0]);
    OnePairHides(root, "", path);
    OnePairHides(root, ".", path);
  }

  /** So do two entries for one directory, when one of them doubles a slash. */
  lemma DoubledSlashHides(root: seq<string>, parent: string, child: string)
    requires root != [] && IsName(parent) && IsName(child) && '/' !in parent && '/' !in child
    ensures var one, other := parent + "//" + child, parent + "/" + child;
      Coexist([one], [other]) && Overlapping(root, [one], [other])
  {
    var one, other := parent + "//" + child, parent + "/" + child;
    DoubledParts(parent, child);
    SingleParts(parent, child);
    SameWalk(root, parent, child);
    FullPathOfParts(root, one);
    FullPathOfParts(root, other);
    OnePairHides(root, one, other);
  }

  lemma SingleParts(parent: string, child: string)
    requires IsName(parent) && IsName(child) && '/' !in parent && '/' !in child
    ensures var path := parent + "/" + child; Parts(path) == [parent, child] && !IsAbsolute(path)
  {
    SplitName(child);
    SplitAfter(parent, child);
    UntrimmedParts(parent + "/" + child);
  }

  lemma DoubledParts(parent: string, child: string)
    requires IsName(parent) && IsName(child) && '/' !in parent && '/' !in child
    ensures var path := parent + "//" + child; Parts(path) == [parent, "", child] && !IsAbsolute(path)
  {
    SplitName(child);
    SplitAfter("", child);
    SplitAfter(parent, "/" + child);
    assert "" + "/" + child == "/" + child && parent + "/" + ("/" + child) == parent + "//" + child;
    UntrimmedParts(parent + "//" + child);
  }

  lemma SameWalk(root: seq<string>, parent: string, child: string)
    requires IsName(parent) && IsName(child)
    ensures Walk(root, [parent, "", child]) == Walk(root, [parent, child]) == root + [parent, child]
  {
    WalkOn(root, [parent], ["", child]);
    WalkOn(root, [parent], [child]);
    assert [parent] + ["", child] == [parent, "", child] && [parent] + [child] == [parent, child];
    assert ["", child][1..] == [child];
    WalkNames(root, [parent, child]);
  }

  /** The other way round, an entry that climbs can be refused beside one it has nothing in common with. */
  lemma ClimbingIsRefused(root: seq<string>, a: string, b: string)
    requires IsName(a) && IsName(b) && a != b && '/' !in a && '/' !in b
    ensures !Coexist([a], [a + "/../" + b]) && !Overlapping(root, [a], [a + "/../" + b])
  {
    var path := a + "/../" + b;
    ClimbingParts(a, b);
    SplitName(a);
    UntrimmedParts(a);
    assert Nested([a][0], [path][0]);
    StepsAside(root, a, b);
    FullPathOfParts(root, a);
    FullPathOfParts(root, path);
    OverlappingIff(root, [a], [path]);
  }

  lemma ClimbingParts(a: string, b: string)
    requires IsName(a) && IsName(b) && '/' !in a && '/' !in b
    ensures var path := a + "/../" + b; Parts(path) == [a, "..", b] && !IsAbsolute(path)
  {
    SplitName(b);
    SplitAfter("..", b);
    SplitAfter(a, "../" + b);
    assert ".." + "/" + b == "../" + b && a + "/" + ("../" + b) == a + "/../" + b;
    UntrimmedParts(a + "/../" + b);
  }

  lemma StepsAside(root: seq<string>, a: string, b: string)
    requires IsName(a) && IsName(b)
    ensures Walk(root, [a]) == root + [a] && Walk(root, [a, "..", b]) == root + [b]
  {
    WalkNames(root, [a]);
    WalkNames(root, [b]);
    WalkOn(root, [a], ["..", b]);
    assert [a] + ["..", b] == [a, "..", b] && ["..", b][1..] == [b];
  }
}
