/**
 Finding concurrent tasks that would write to the same place (TaskGraph.FindWriteScopeConflicts),
 and what locking only plans without any is worth (PlanService.LockAsync).
 */
module WriteScopes {
  import opened Wrappers
  import opened Domain
  import opened Paths

  datatype WriteScopeConflict = WriteScopeConflict(first: TaskId, second: TaskId, sharedPath: string)

  // --- one pair of paths -------------------------------------------------------------------

  /** The leading components both paths have, joined; longest, and so uniquely determined. */
  method SharedPrefix(a: string, b: string) returns (shared: string)
    ensures shared == SharedPath(a, b)
  {
    var left := Parts(a);
    var right := Parts(b);
    var common: seq<string> := [];
    var i := 0;
    while i < |left| && i < |right| && left[i] == right[i]
      invariant i <= |left| && i <= |right| && common == left[..i] == right[..i]
    {
      common := common + [left[i]];
      i := i + 1;
    }
    CommonUnique(left, right, i);
    return Join(common);
  }

  ghost function SharedPath(a: string, b: string): string {
    Join(Parts(a)[..Common(Parts(a), Parts(b))])
  }

  /**
   Something is reported as shared exactly when both paths lie in one top-level directory; and it is the
   longest path of components that both begin with.
   */
  lemma SharedPathIff(a: string, b: string)
    ensures SharedPath(a, b) != "" ==>
      var shared := Split(SharedPath(a, b));
      && shared <= Parts(a) && shared <= Parts(b)
      && (|shared| < |Parts(a)| && |shared| < |Parts(b)| ==> Parts(a)[|shared|] != Parts(b)[|shared|])
    ensures SharedPath(a, b) != "" <==> Parts(a)[0] == Parts(b)[0] && !CutsToNothing(a) && !CutsToNothing(b)
  {
    FirstPart(a);
    FirstPart(b);
    var n := Common(Parts(a), Parts(b));
    CommonIsLongest(Parts(a), Parts(b));
    if n > 0 {
      NoSlashInside(Trim(a));
      SplitJoin(Parts(a)[..n]);
    }
    if n > 1 {
      assert Parts(a)[..n][0] == Parts(a)[0];
    } else if n == 1 {
      assert Parts(a)[..n] == [Parts(a)[0]];
    }
  }

  // --- one pair of tasks -----------------------------------------------------------------------

  ghost function FirstSharedWith(path: ProjectPath, scope: seq<ProjectPath>): Option<string> {
    if scope == [] then None
    else if SharedPath(path.value, scope[0].value) != "" then Some(SharedPath(path.value, scope[0].value))
    else FirstSharedWith(path, scope[1..])
  }

  ghost function FirstShared(a: seq<ProjectPath>, b: seq<ProjectPath>): Option<string> {
    if a == [] then None
    else if FirstSharedWith(a[0], b).Some? then FirstSharedWith(a[0], b)
    else FirstShared(a[1..], b)
  }

  method FirstOverlap(first: PlanTask, second: PlanTask) returns (shared: Option<string>)
    ensures shared == FirstShared(first.writeScope, second.writeScope)
  {
    var a, b := first.writeScope, second.writeScope;
    for i := 0 to |a|
      invariant FirstShared(a, b) == FirstShared(a[i..], b)
    {
      assert a[i..][0] == a[i] && a[i..][1..] == a[i + 1..];
      for j := 0 to |b|
        invariant FirstSharedWith(a[i], b) == FirstSharedWith(a[i], b[j..])
      {
        assert b[j..][0] == b[j] && b[j..][1..] == b[j + 1..];
        var path := SharedPrefix(a[i].value, b[j].value);
        if |path| > 0 {
          return Some(path);
        }
      }
    }
    return None;
  }

  /** Some entry of one and some entry of the other lie in one top-level directory. */
  ghost predicate SharesTopLevel(a: seq<ProjectPath>, b: seq<ProjectPath>) {
    exists i, j :: 0 <= i < |a| && 0 <= j < |b| && InOneDirectory(a[i], b[j])
  }

  predicate InOneDirectory(a: ProjectPath, b: ProjectPath) {
    Parts(a.value)[0] == Parts(b.value)[0] && !CutsToNothing(a.value) && !CutsToNothing(b.value)
  }

  lemma {:induction false} FirstSharedWithIff(path: ProjectPath, scope: seq<ProjectPath>)
    ensures FirstSharedWith(path, scope).Some? <==> exists j :: 0 <= j < |scope| && InOneDirectory(path, scope[j])
  {
    if scope != [] {
      SharedPathIff(path.value, scope[0].value);
      FirstSharedWithIff(path, scope[1..]);
      if j :| 0 <= j < |scope| && InOneDirectory(path, scope[j]) && j > 0 {
        assert scope[1..][j - 1] == scope[j];
      }
      if j :| 0 <= j < |scope[1..]| && InOneDirectory(path, scope[1..][j]) {
        assert scope[j + 1] == scope[1..][j];
      }
    }
  }

  lemma {:induction false} FirstSharedIff(a: seq<ProjectPath>, b: seq<ProjectPath>)
    ensures FirstShared(a, b).Some? <==> SharesTopLevel(a, b)
  {
    if a != [] {
      FirstSharedWithIff(a[0], b);
      FirstSharedIff(a[1..], b);
      if i, j :| 0 <= i < |a| && 0 <= j < |b| && InOneDirectory(a[i], b[j]) && i > 0 {
        assert InOneDirectory(a[1..][i - 1], b[j]);
      }
      if i, j :| 0 <= i < |a[1..]| && 0 <= j < |b| && InOneDirectory(a[1..][i], b[j]) {
        assert InOneDirectory(a[i + 1], b[j]);
      }
    }
  }

  // --- all pairs ---------------------------------------------------------------------------------

  /** Neither waits for the other directly. */
  predicate Concurrent(first: PlanTask, second: PlanTask) {
    second.id !in first.dependencies && first.id !in second.dependencies
  }

  ghost function ConflictOf(first: PlanTask, second: PlanTask): seq<WriteScopeConflict> {
    var shared := FirstShared(first.writeScope, second.writeScope);
    if Concurrent(first, second) && shared.Some? then [WriteScopeConflict(first.id, second.id, shared.value)] else []
  }

  /** What comparing two places of the plan reports. */
  ghost function Comparing(tasks: seq<PlanTask>): (nat, nat) -> seq<WriteScopeConflict> {
    (i: nat, j: nat) => if i < |tasks| && j < |tasks| then ConflictOf(tasks[i], tasks[j]) else []
  }

  /** The reports on i against the places after it, up to j. */
  ghost function RowOf<T(!new)>(found: (nat, nat) -> seq<T>, i: nat, j: nat): seq<T> {
    if j <= i + 1 then [] else RowOf(found, i, j - 1) + found(i, j - 1)
  }

  /** The reports on the first i places against all after them, n in all. */
  ghost function RowsOf<T(!new)>(found: (nat, nat) -> seq<T>, n: nat, i: nat): seq<T> {
    if i == 0 then [] else RowsOf(found, n, i - 1) + RowOf(found, i - 1, n)
  }

  /** found gives what comparing two places of the plan reports. */
  ghost predicate Tells(found: (nat, nat) -> seq<WriteScopeConflict>, tasks: seq<PlanTask>) {
    forall i: nat, j: nat {:trigger ConflictOf(tasks[i], tasks[j])} :: i < |tasks| && j < |tasks| ==>
      found(i, j) == ConflictOf(tasks[i], tasks[j])
  }

  method FindWriteScopeConflicts(tasks: seq<PlanTask>) returns (conflicts: seq<WriteScopeConflict>)
    ensures conflicts == RowsOf(Comparing(tasks), |tasks|, |tasks|)
  {
    conflicts := CompareAll(tasks, Comparing(tasks));
  }

  method CompareAll(tasks: seq<PlanTask>, ghost found: (nat, nat) -> seq<WriteScopeConflict>)
    returns (conflicts: seq<WriteScopeConflict>)
    requires Tells(found, tasks)
    ensures conflicts == RowsOf(found, |tasks|, |tasks|)
  {
    conflicts := [];
    for i := 0 to |tasks|
      invariant conflicts == RowsOf(found, |tasks|, i)
    {
      ghost var above := conflicts;
      for j := i + 1 to |tasks|
        invariant conflicts == above + RowOf(found, i, j)
      {
        var next := Compare(tasks, i, j, found);
        Associate(above, RowOf(found, i, j), next);
        conflicts := conflicts + next;
      }
    }
  }

  lemma Associate<T>(a: seq<T>, b: seq<T>, c: seq<T>)
    ensures (a + b) + c == a + (b + c)
  {
  }

  method Compare(tasks: seq<PlanTask>, i: nat, j: nat, ghost found: (nat, nat) -> seq<WriteScopeConflict>)
    returns (next: seq<WriteScopeConflict>)
    requires Tells(found, tasks) && i < |tasks| && j < |tasks|
    ensures next == found(i, j)
  {
    var first, second := tasks[i], tasks[j];
    assert found(i, j) == ConflictOf(first, second);
    if second.id in first.dependencies || first.id in second.dependencies {
      return [];
    }
    var shared := FirstOverlap(first, second);
    return if shared.Some? then [WriteScopeConflict(first.id, second.id, shared.value)] else [];
  }

  ghost predicate Conflicting(first: PlanTask, second: PlanTask) {
    Concurrent(first, second) && SharesTopLevel(first.writeScope, second.writeScope)
  }

  lemma {:induction false} RowEmptyIff<T(!new)>(found: (nat, nat) -> seq<T>, i: nat, j: nat)
    ensures RowOf(found, i, j) == [] <==> forall k :: i < k < j ==> found(i, k) == []
  {
    if j > i + 1 {
      RowEmptyIff(found, i, j - 1);
      assert |RowOf(found, i, j)| == |RowOf(found, i, j - 1)| + |found(i, j - 1)|;
    }
  }

  lemma {:induction false} RowsEmptyIff<T(!new)>(found: (nat, nat) -> seq<T>, n: nat, i: nat)
    ensures RowsOf(found, n, i) == [] <==> forall a, b :: 0 <= a < i && a < b < n ==> found(a, b) == []
  {
    if i > 0 {
      RowsEmptyIff(found, n, i - 1);
      RowEmptyIff(found, i - 1, n);
      assert |RowsOf(found, n, i)| == |RowsOf(found, n, i - 1)| + |RowOf(found, i - 1, n)|;
    }
  }

  lemma ConflictIff(first: PlanTask, second: PlanTask)
    ensures ConflictOf(first, second) == [] <==> !Conflicting(first, second)
  {
    FirstSharedIff(first.writeScope, second.writeScope);
  }

  /** No two tasks of the plan would be reported at locking. */
  ghost predicate NoConflicts(tasks: seq<PlanTask>) {
    RowsOf(Comparing(tasks), |tasks|, |tasks|) == []
  }

  /** Nothing is reported exactly when no two tasks that do not name each other write under one top-level directory. */
  lemma NoConflictsIff(tasks: seq<PlanTask>)
    ensures NoConflicts(tasks) <==>
            forall a, b :: 0 <= a < b < |tasks| ==> !Conflicting(tasks[a], tasks[b])
  {
    var found := Comparing(tasks);
    RowsEmptyIff(found, |tasks|, |tasks|);
    if RowsOf(found, |tasks|, |tasks|) == [] {
      forall a, b | 0 <= a < b < |tasks| ensures !Conflicting(tasks[a], tasks[b]) {
        assert found(a, b) == [];
        ConflictIff(tasks[a], tasks[b]);
      }
    } else {
      var a: nat, b: nat :| a < b < |tasks| && found(a, b) != [];
      ConflictIff(tasks[a], tasks[b]);
    }
  }

  // --- what is reported --------------------------------------------------------------------------

  lemma {:induction false} RowMembers<T(!new)>(found: (nat, nat) -> seq<T>, i: nat, j: nat, c: T)
    ensures c in RowOf(found, i, j) <==> exists k: nat :: i < k < j && c in found(i, k)
  {
    if j > i + 1 {
      RowMembers(found, i, j - 1, c);
    }
  }

  lemma {:induction false} RowsMembers<T(!new)>(found: (nat, nat) -> seq<T>, n: nat, i: nat, c: T)
    ensures c in RowsOf(found, n, i) <==> exists a: nat, b: nat :: FoundAt(found, n, i, c, a, b)
  {
    if i > 0 {
      var last: nat := i - 1;
      RowsMembers(found, n, last, c);
      RowMembers(found, last, n, c);
      if k: nat :| last < k < n && c in found(last, k) {
        assert FoundAt(found, n, i, c, last, k);
      }
      if a: nat, b: nat :| FoundAt(found, n, last, c, a, b) {
        assert FoundAt(found, n, i, c, a, b);
      }
      if a: nat, b: nat :| FoundAt(found, n, i, c, a, b) {
        assert a < last ==> FoundAt(found, n, last, c, a, b);
      }
    }
  }

  ghost predicate FoundAt<T(!new)>(found: (nat, nat) -> seq<T>, n: nat, i: nat, c: T, a: nat, b: nat) {
    a < i && a < b < n && c in found(a, b)
  }

  /** The conflict names two tasks that do not wait for each other, and what their scopes share first. */
  ghost predicate Names(c: WriteScopeConflict, first: PlanTask, second: PlanTask) {
    && c.first == first.id && c.second == second.id && Conflicting(first, second)
    && exists i, j :: SharedFirst(first.writeScope, second.writeScope, i, j, c.sharedPath)
  }

  /** Entries i and j are the first that share anything, and this is what they share. */
  ghost predicate SharedFirst(a: seq<ProjectPath>, b: seq<ProjectPath>, i: nat, j: nat, path: string) {
    && i < |a| && j < |b| && path == SharedPath(a[i].value, b[j].value) && path != ""
    && (forall k :: 0 <= k < j ==> SharedPath(a[i].value, b[k].value) == "")
    && (forall h, k :: 0 <= h < i && 0 <= k < |b| ==> SharedPath(a[h].value, b[k].value) == "")
  }

  lemma {:induction false} FirstSharedWithAt(path: ProjectPath, scope: seq<ProjectPath>) returns (j: nat)
    requires FirstSharedWith(path, scope).Some?
    ensures j < |scope| && SharedPath(path.value, scope[j].value) != ""
    ensures FirstSharedWith(path, scope).value == SharedPath(path.value, scope[j].value)
    ensures forall k :: 0 <= k < j ==> SharedPath(path.value, scope[k].value) == ""
  {
    if SharedPath(path.value, scope[0].value) != "" {
      j := 0;
    } else {
      j := FirstSharedWithAt(path, scope[1..]);
      j := j + 1;
    }
  }

  lemma {:induction false} SharedWithNone(path: ProjectPath, scope: seq<ProjectPath>)
    requires FirstSharedWith(path, scope).None?
    ensures forall k :: 0 <= k < |scope| ==> SharedPath(path.value, scope[k].value) == ""
  {
    if scope != [] {
      SharedWithNone(path, scope[1..]);
    }
  }

  lemma {:induction false} FirstSharedAt(a: seq<ProjectPath>, b: seq<ProjectPath>) returns (i: nat, j: nat)
    requires FirstShared(a, b).Some?
    ensures SharedFirst(a, b, i, j, FirstShared(a, b).value)
  {
    if FirstSharedWith(a[0], b).Some? {
      i := 0;
      j := FirstSharedWithAt(a[0], b);
    } else {
      SharedWithNone(a[0], b);
      i, j := FirstSharedAt(a[1..], b);
      i := i + 1;
    }
  }

  lemma SharedFirstIsOne(a: seq<ProjectPath>, b: seq<ProjectPath>, i: nat, j: nat, x: string, k: nat, l: nat, y: string)
    requires SharedFirst(a, b, i, j, x) && SharedFirst(a, b, k, l, y)
    ensures x == y
  {
  }

  lemma ReportedNames(found: (nat, nat) -> seq<WriteScopeConflict>, tasks: seq<PlanTask>, c: WriteScopeConflict)
    requires Tells(found, tasks) && c in RowsOf(found, |tasks|, |tasks|)
    ensures NamesSomePair(c, tasks)
  {
    RowsMembers(found, |tasks|, |tasks|, c);
    var a: nat, b: nat :| FoundAt(found, |tasks|, |tasks|, c, a, b);
    assert c in ConflictOf(tasks[a], tasks[b]);
    ReportsPair(tasks[a], tasks[b], c);
    assert NamesPair(c, tasks, a, b);
  }

  lemma PairIsReported(found: (nat, nat) -> seq<WriteScopeConflict>, tasks: seq<PlanTask>, c: WriteScopeConflict,
                       a: nat, b: nat)
    requires Tells(found, tasks) && NamesPair(c, tasks, a, b)
    ensures c in RowsOf(found, |tasks|, |tasks|)
  {
    ReportsPair(tasks[a], tasks[b], c);
    assert c in ConflictOf(tasks[a], tasks[b]);
    assert FoundAt(found, |tasks|, |tasks|, c, a, b);
    RowsMembers(found, |tasks|, |tasks|, c);
  }

  /** What is reported is exactly every pair in conflict, with what it shares first. */
  lemma ReportedIff(tasks: seq<PlanTask>, c: WriteScopeConflict)
    ensures c in RowsOf(Comparing(tasks), |tasks|, |tasks|) <==> NamesSomePair(c, tasks)
  {
    if c in RowsOf(Comparing(tasks), |tasks|, |tasks|) {
      ReportedNames(Comparing(tasks), tasks, c);
    }
    if a: nat, b: nat :| NamesPair(c, tasks, a, b) {
      PairIsReported(Comparing(tasks), tasks, c, a, b);
    }
  }

  ghost predicate NamesPair(c: WriteScopeConflict, tasks: seq<PlanTask>, a: nat, b: nat) {
    a < b < |tasks| && Names(c, tasks[a], tasks[b])
  }

  ghost predicate NamesSomePair(c: WriteScopeConflict, tasks: seq<PlanTask>) {
    exists a: nat, b: nat :: NamesPair(c, tasks, a, b)
  }

  lemma ReportsPair(first: PlanTask, second: PlanTask, c: WriteScopeConflict)
    ensures c in ConflictOf(first, second) <==> Names(c, first, second)
  {
    FirstSharedIff(first.writeScope, second.writeScope);
    if Conflicting(first, second) {
      var i, j := FirstSharedAt(first.writeScope, second.writeScope);
      if k, l :| SharedFirst(first.writeScope, second.writeScope, k, l, c.sharedPath) {
        SharedFirstIsOne(first.writeScope, second.writeScope, i, j,
                         FirstShared(first.writeScope, second.writeScope).value, k, l, c.sharedPath);
      }
    }
  }
}
