/**
 The cost summary of a project (IntelligenceStore.build_summary): which records of an append-only
 ledger count, and how their cost is spread over components.
 */
module CostLedger {
  import opened Wrappers

  datatype Record = Record(task: string, cost: Option<real>, components: seq<string>)

  datatype Summary = Summary(tasks: nat, observed: Option<real>, byComponent: map<string, real>)

  // --- the records that count ---------------------------------------------------------------

  /** The position of the last record of a task. */
  ghost predicate IsLast(records: seq<Record>, i: nat) {
    i < |records| && forall j :: i < j < |records| ==> records[j].task != records[i].task
  }

  ghost predicate Counts(records: seq<Record>, r: Record) {
    exists i: nat :: IsLast(records, i) && records[i] == r
  }

  /** A dictionary in insertion order: setting a key again keeps its place. */
  function SetLatest(latest: seq<Record>, record: Record): (after: seq<Record>)
    ensures |after| == |latest| || |after| == |latest| + 1
  {
    if latest == [] then [record]
    else if latest[0].task == record.task then [record] + latest[1..]
    else [latest[0]] + SetLatest(latest[1..], record)
  }

  function Latest(records: seq<Record>): seq<Record> {
    if records == [] then [] else SetLatest(Latest(records[..|records| - 1]), records[|records| - 1])
  }

  ghost predicate OneEach(latest: seq<Record>) {
    forall i, j :: 0 <= i < j < |latest| ==> latest[i].task != latest[j].task
  }

  lemma {:induction false} SetLatestMembers(latest: seq<Record>, record: Record, r: Record)
    requires OneEach(latest)
    ensures OneEach(SetLatest(latest, record))
    ensures r in SetLatest(latest, record) <==> r == record || (r in latest && r.task != record.task)
    ensures forall k :: 0 <= k < |SetLatest(latest, record)| ==>
      SetLatest(latest, record)[k] == record || SetLatest(latest, record)[k] in latest
  {
    if latest != [] && latest[0].task != record.task {
      SetLatestMembers(latest[1..], record, r);
      var rest := SetLatest(latest[1..], record);
      assert forall k :: 0 <= k < |rest| ==> rest[k].task != latest[0].task;
    }
  }

  /** Of every task, its last record counts and no other. */
  lemma {:induction false} OnlyTheLastCounts(records: seq<Record>, r: Record)
    ensures OneEach(Latest(records))
    ensures r in Latest(records) <==> Counts(records, r)
  {
    if records != [] {
      var init, last := records[..|records| - 1], records[|records| - 1];
      OnlyTheLastCounts(init, r);
      SetLatestMembers(Latest(init), last, r);
      CountsAfter(init, last, r);
      assert records == init + [last];
    }
  }

  lemma CountsAfter(records: seq<Record>, last: Record, r: Record)
    ensures Counts(records + [last], r) <==> r == last || (Counts(records, r) && r.task != last.task)
  {
    var longer := records + [last];
    assert IsLast(longer, |records|) && longer[|records|] == last;
    if i: nat :| IsLast(records, i) && records[i] == r && r.task != last.task {
      assert IsLast(longer, i) && longer[i] == r;
    }
    if i: nat :| IsLast(longer, i) && longer[i] == r && i < |records| {
      StillLast(records, last, i);
    }
  }

  lemma StillLast(records: seq<Record>, last: Record, i: nat)
    requires i < |records| && IsLast(records + [last], i)
    ensures IsLast(records, i) && records[i].task != last.task && (records + [last])[i] == records[i]
  {
    var longer := records + [last];
    assert longer[|records|] == last;
    assert forall j :: 0 <= j < |records| ==> longer[j] == records[j];
  }

  // --- sums ------------------------------------------------------------------------------------

  function CostOf(r: Record): real {
    if r.cost.Some? then r.cost.value else 0.0
  }

  function Observed(latest: seq<Record>): real {
    if latest == [] then 0.0 else Observed(latest[..|latest| - 1]) + CostOf(latest[|latest| - 1])
  }

  /** None as long as no record has an observed cost. */
  function ObservedCost(latest: seq<Record>): Option<real> {
    if latest == [] then None
    else
      var init, last := ObservedCost(latest[..|latest| - 1]), latest[|latest| - 1];
      if last.cost.None? then init
      else Some((if init.Some? then init.value else 0.0) + last.cost.value)
  }

  lemma {:induction false} ObservedCostIs(latest: seq<Record>)
    ensures ObservedCost(latest).Some? <==> exists r :: r in latest && r.cost.Some?
    ensures (if ObservedCost(latest).Some? then ObservedCost(latest).value else 0.0) == Observed(latest)
  {
    if latest != [] {
      var init, last := latest[..|latest| - 1], latest[|latest| - 1];
      ObservedCostIs(init);
      assert latest == init + [last];
    }
  }

  /** What the records that name components cost. */
  function Attributed(latest: seq<Record>): real {
    if latest == [] then 0.0
    else
      var last := latest[|latest| - 1];
      Attributed(latest[..|latest| - 1]) + (if last.components == [] then 0.0 else CostOf(last))
  }

  /** How often a record names a component. */
  function Mentions(components: seq<string>, component: string): nat {
    if components == [] then 0
    else
      Mentions(components[..|components| - 1], component) +
      (if components[|components| - 1] == component then 1 else 0)
  }

  function Share(r: Record): real {
    if r.components == [] then 0.0 else CostOf(r) / |r.components| as real
  }

  /** What a component is charged: of each record, one share for every time it is named. */
  function Charged(latest: seq<Record>, component: string): real {
    if latest == [] then 0.0
    else
      var last := latest[|latest| - 1];
      Charged(latest[..|latest| - 1], component) + Times(Mentions(last.components, component), Share(last))
  }

  ghost function Total(m: map<string, real>): real
    decreases |m|
  {
    if m == map[] then 0.0 else var k :| k in m; m[k] + Total(m - {k})
  }

  lemma {:induction false} TotalWithout(m: map<string, real>, k: string)
    requires k in m
    ensures Total(m) == m[k] + Total(m - {k})
    decreases |m|
  {
    var j :| j in m && Total(m) == m[j] + Total(m - {j});
    if j != k {
      TotalWithout(m - {j}, k);
      TotalWithout(m - {k}, j);
      assert m - {j} - {k} == m - {k} - {j};
    }
  }

  function At(m: map<string, real>, k: string): real {
    if k in m then m[k] else 0.0
  }

  lemma TotalAdds(m: map<string, real>, k: string, x: real)
    ensures Total(m[k := At(m, k) + x]) == Total(m) + x
  {
    var after := m[k := At(m, k) + x];
    TotalWithout(after, k);
    if k in m {
      TotalWithout(m, k);
      assert after - {k} == m - {k};
    } else {
      assert after - {k} == m;
    }
  }

  // --- the summary ---------------------------------------------------------------------------------

  method BuildSummary(records: seq<Record>) returns (summary: Summary)
    ensures summary.tasks == |Latest(records)|
    ensures summary.observed.Some? <==> exists r :: r in Latest(records) && r.cost.Some?
    ensures summary.observed.Some? ==> summary.observed.value == Observed(Latest(records))
    ensures Total(summary.byComponent) == Attributed(Latest(records))
    ensures forall c :: At(summary.byComponent, c) == Charged(Latest(records), c)
  {
    var latest: seq<Record> := [];
    for i := 0 to |records|
      invariant latest == Latest(records[..i])
    {
      assert records[..i + 1][..i] == records[..i];
      latest := SetLatest(latest, records[i]);
    }
    assert records[..|records|] == records;
    var observed := SumObserved(latest);
    var byComponent := Allocate(latest);
    ObservedCostIs(latest);
    return Summary(|latest|, observed, byComponent);
  }

  method SumObserved(latest: seq<Record>) returns (observed: Option<real>)
    ensures observed == ObservedCost(latest)
  {
    observed := None;
    for i := 0 to |latest|
      invariant observed == ObservedCost(latest[..i])
    {
      assert latest[..i + 1][..i] == latest[..i];
      if latest[i].cost.Some? {
        observed := Some((if observed.Some? then observed.value else 0.0) + latest[i].cost.value);
      }
    }
    assert latest[..|latest|] == latest;
  }

  /** Charges every record's cost to its components in equal shares. */
  method Allocate(latest: seq<Record>) returns (byComponent: map<string, real>)
    ensures Total(byComponent) == Attributed(latest)
    ensures forall c :: At(byComponent, c) == Charged(latest, c)
  {
    byComponent := map[];
    for i := 0 to |latest|
      invariant Total(byComponent) == Attributed(latest[..i])
      invariant forall c :: At(byComponent, c) == Charged(latest[..i], c)
    {
      assert latest[..i + 1][..i] == latest[..i];
      if latest[i].cost.None? || latest[i].components == [] {
        forall c ensures Charged(latest[..i + 1], c) == Charged(latest[..i], c) { NothingCharged(latest[i], c); }
        continue;
      }
      byComponent := Charge(latest[i], byComponent);
    }
    assert latest[..|latest|] == latest;
  }

  lemma NothingCharged(r: Record, c: string)
    requires r.cost.None? || r.components == []
    ensures Times(Mentions(r.components, c), Share(r)) == 0.0
  {
    if r.components == [] {
      assert Mentions(r.components, c) == 0;
    } else {
      assert Share(r) == 0.0;
    }
  }

  method Charge(r: Record, before: map<string, real>) returns (after: map<string, real>)
    requires r.cost.Some? && r.components != []
    ensures Total(after) == Total(before) + CostOf(r)
    ensures forall c :: At(after, c) == At(before, c) + Times(Mentions(r.components, c), Share(r))
  {
    var share := r.cost.value / |r.components| as real;
    after := before;
    for i := 0 to |r.components|
      invariant SharedOut(before, after, r.components[..i], share)
    {
      ShareOne(before, after, r.components[..i], r.components[i], share);
      assert r.components[..i + 1] == r.components[..i] + [r.components[i]];
      after := after[r.components[i] := At(after, r.components[i]) + share];
    }
    assert r.components[..|r.components|] == r.components;
    assert Times(|r.components|, share) == CostOf(r);
  }

  function Times(n: nat, share: real): real {
    n as real * share
  }

  /** Every mention so far has added one share to its component. */
  ghost predicate SharedOut(before: map<string, real>, after: map<string, real>, components: seq<string>,
                            share: real)
  {
    && Total(after) == Total(before) + Times(|components|, share)
    && forall c :: At(after, c) == At(before, c) + Times(Mentions(components, c), share)
  }

  lemma OneMoreShare(n: nat, share: real)
    ensures Times(n + 1, share) == Times(n, share) + share
  {
  }

  lemma ShareOne(before: map<string, real>, after: map<string, real>, components: seq<string>, next: string,
                 share: real)
    requires SharedOut(before, after, components, share)
    ensures SharedOut(before, after[next := At(after, next) + share], components + [next], share)
  {
    var longer := components + [next];
    assert longer[..|components|] == components;
    TotalAdds(after, next, share);
    OneMoreShare(|components|, share);
    forall c
      ensures At(after[next := At(after, next) + share], c) == At(before, c) + Times(Mentions(longer, c), share)
    {
      OneMoreShare(Mentions(components, c), share);
    }
  }

  // --- conservation -----------------------------------------------------------------------------------

  ghost predicate NoRefunds(latest: seq<Record>) {
    forall i :: 0 <= i < |latest| ==> CostOf(latest[i]) >= 0.0
  }

  /**
   Nothing is charged that was not observed, and all of it is exactly when every record that cost
   anything names a component.
   */
  lemma {:induction false} NeverOvercharged(latest: seq<Record>)
    requires NoRefunds(latest)
    ensures Attributed(latest) <= Observed(latest)
    ensures (forall i :: 0 <= i < |latest| && CostOf(latest[i]) > 0.0 ==> latest[i].components != []) <==>
            Attributed(latest) == Observed(latest)
  {
    if latest != [] {
      var init := latest[..|latest| - 1];
      assert forall i :: 0 <= i < |init| ==> init[i] == latest[i];
      NeverOvercharged(init);
    }
  }
}
