/** Spend limits of a run while its tasks interleave (budget.py, goal_runner.py). */
module Budget {
  import opened Wrappers
  import opened Collections

  datatype BudgetKind = Attempts | Tokens | Cost

  /** What a runner reported for one attempt; it may report nothing. */
  datatype Usage = Usage(tokens: int, cost: real, reported: bool)

  datatype Limits = Limits(maxAttempts: int, maxTokens: int, maxCost: real)

  datatype Spend = Spend(attempts: int, tokens: int, cost: real, unmeasured: int)

  /** Which limit stops the next attempt; a token or cost limit of zero is no limit. */
  function Exceeded(limits: Limits, spend: Spend): Option<BudgetKind> {
    if spend.attempts >= limits.maxAttempts then Some(Attempts)
    else if limits.maxTokens != 0 && spend.tokens >= limits.maxTokens then Some(Tokens)
    else if limits.maxCost != 0.0 && spend.cost >= limits.maxCost then Some(Cost)
    else None
  }

  function Reserved(spend: Spend): Spend {
    spend.(attempts := spend.attempts + 1)
  }

  function Recorded(spend: Spend, usage: Usage): Spend {
    if usage.reported then spend.(tokens := spend.tokens + usage.tokens, cost := spend.cost + usage.cost)
    else spend.(unmeasured := spend.unmeasured + 1)
  }

  function Max(a: int, b: int): int {
    if a < b then b else a
  }

  /** The cap is never below one attempt, and exactly one first try and all retries for every task. */
  function LimitsFrom(maxRetriesPerTask: int, maxTokens: int, maxCost: real, taskCount: int): (limits: Limits)
    ensures limits.maxAttempts >= 1
    ensures taskCount >= 1 && maxRetriesPerTask >= 0 ==> limits.maxAttempts == taskCount + taskCount * maxRetriesPerTask
  {
    Limits(Max(1, taskCount) * (1 + Max(0, maxRetriesPerTask)), maxTokens, maxCost)
  }

  /** What a run has spent, changed only as Reserved and Recorded say. */
  class BudgetLedger {
    const limits: Limits
    var attempts: int
    var tokens: int
    var cost: real
    var unmeasured: int

    function Spent(): Spend
      reads this
    {
      Spend(attempts, tokens, cost, unmeasured)
    }

    constructor FromConfig(maxRetriesPerTask: int, maxTokens: int, maxCost: real, taskCount: int)
      ensures limits == LimitsFrom(maxRetriesPerTask, maxTokens, maxCost, taskCount)
      ensures Spent() == Spend(0, 0, 0.0, 0)
    {
      limits := LimitsFrom(maxRetriesPerTask, maxTokens, maxCost, taskCount);
      attempts, tokens, cost, unmeasured := 0, 0, 0.0, 0;
    }

    method CheckCanStartAttempt() returns (r: Result<(), BudgetKind>)
      ensures r == match Exceeded(limits, Spent()) case None => Ok(()) case Some(kind) => Err(kind)
    {
      if attempts >= limits.maxAttempts {
        return Err(Attempts);
      }
      if limits.maxTokens != 0 && tokens >= limits.maxTokens {
        return Err(Tokens);
      }
      if limits.maxCost != 0.0 && cost >= limits.maxCost {
        return Err(Cost);
      }
      return Ok(());
    }

    /** One more attempt counted if no limit is spent, and otherwise nothing changed. */
    method ReserveAttempt() returns (r: Result<(), BudgetKind>)
      modifies this
      ensures r == match Exceeded(limits, old(Spent())) case None => Ok(()) case Some(kind) => Err(kind)
      ensures Spent() == if r.Ok? then Reserved(old(Spent())) else old(Spent())
    {
      var _ :- CheckCanStartAttempt();
      attempts := attempts + 1;
      return Ok(());
    }

    /** Adds what was reported; an attempt that reported nothing is counted apart. */
    method Record(usage: Usage)
      modifies this
      ensures Spent() == Recorded(old(Spent()), usage)
    {
      if !usage.reported {
        unmeasured := unmeasured + 1;
        return;
      }
      tokens := tokens + usage.tokens;
      cost := cost + usage.cost;
    }
  }

  // --- a batch of tasks at work -----------------------------------------------------------------

  /**
   The tasks of the current batch, those of them whose attempt is in flight, and, counted by name,
   what became of every attempt that was let through.
   */
  datatype System = System(spend: Spend, batch: set<nat>, flying: set<nat>, recorded: nat, lost: nat)

  datatype Step =
    | Reserve(task: nat)
    | Record(task: nat, usage: Usage)
    | Lose(task: nat)
    | NextBatch(tasks: set<nat>)

  /** width is the most tasks a batch may hold; u and c are the most one attempt reports. */
  datatype Setup = Setup(limits: Limits, width: nat, u: nat, c: real)

  ghost predicate WithinReport(setup: Setup, usage: Usage) {
    usage.reported ==> usage.tokens <= setup.u && usage.cost <= setup.c
  }

  /** A task awaits one attempt at a time; a batch starts when nothing of the last is in flight. */
  ghost predicate Enabled(setup: Setup, s: System, step: Step) {
    match step
    case Reserve(task) => task in s.batch && task !in s.flying
    case Record(task, usage) => task in s.flying && WithinReport(setup, usage)
    case Lose(task) => task in s.flying
    case NextBatch(tasks) => s.flying == {} && |tasks| <= setup.width
  }

  ghost function After(setup: Setup, s: System, step: Step): System
    requires Enabled(setup, s, step)
  {
    match step
    case Reserve(task) =>
      if Exceeded(setup.limits, s.spend).None? then s.(spend := Reserved(s.spend), flying := s.flying + {task}) else s
    case Record(task, usage) =>
      s.(spend := Recorded(s.spend, usage), flying := s.flying - {task}, recorded := s.recorded + 1)
    case Lose(task) => s.(flying := s.flying - {task}, lost := s.lost + 1)
    case NextBatch(tasks) => s.(batch := tasks)
  }

  const Nothing := System(Spend(0, 0, 0.0, 0), {}, {}, 0, 0)

  ghost predicate Behaviour(setup: Setup, states: seq<System>) {
    && states != [] && states[0] == Nothing
    && forall i {:trigger MovesAt(setup, states, i)} :: 0 < i < |states| ==> MovesAt(setup, states, i)
  }

  ghost predicate MovesAt(setup: Setup, states: seq<System>, i: nat)
    requires 0 < i < |states|
  {
    Moves(setup, states[i - 1], states[i])
  }

  ghost predicate Moves(setup: Setup, a: System, b: System) {
    exists step :: Enabled(setup, a, step) && b == After(setup, a, step)
  }

  /** What every interleaving keeps: room is left for all that is in flight. */
  ghost predicate Inv(setup: Setup, s: System) {
    && s.flying <= s.batch && |s.batch| <= setup.width
    && s.spend.attempts == |s.flying| + s.recorded + s.lost
    && 0 <= s.spend.unmeasured <= s.recorded
    && s.spend.attempts <= setup.limits.maxAttempts
    && (setup.limits.maxTokens > 0 ==>
          s.spend.tokens + TokensOf(|s.flying|, setup.u) <= setup.limits.maxTokens - 1 + TokensOf(setup.width, setup.u))
    && (setup.limits.maxCost > 0.0 ==>
          s.spend.cost + CostOf(|s.flying|, setup.c) < setup.limits.maxCost + CostOf(setup.width, setup.c))
  }

  lemma FlyingFits(s: System)
    requires s.flying <= s.batch
    ensures |s.flying| <= |s.batch|
    ensures forall task :: task in s.batch && task !in s.flying ==> |s.flying| < |s.batch|
  {
    Subset(s.flying, s.batch);
    forall task | task in s.batch && task !in s.flying ensures |s.flying| < |s.batch| {
      Subset(s.flying, s.batch - {task});
    }
  }

  /** The most n attempts may report. */
  ghost function TokensOf(n: nat, u: nat): nat {
    n * u
  }

  ghost function CostOf(n: nat, c: real): real {
    n as real * c
  }

  lemma MoreReportMore(n: nat, m: nat, u: nat, c: real)
    requires n <= m && c >= 0.0
    ensures TokensOf(n, u) <= TokensOf(m, u) && CostOf(n, c) <= CostOf(m, c)
  {
  }

  lemma OneReportsLess(n: nat, u: nat, c: real)
    requires n >= 1
    ensures TokensOf(n - 1, u) == TokensOf(n, u) - u && CostOf(n - 1, c) == CostOf(n, c) - c
  {
  }

  lemma ReserveKeeps(setup: Setup, s: System, task: nat)
    requires Inv(setup, s) && setup.c >= 0.0 && Enabled(setup, s, Reserve(task))
    ensures Inv(setup, After(setup, s, Reserve(task)))
  {
    var t := After(setup, s, Reserve(task));
    FlyingFits(s);
    if Exceeded(setup.limits, s.spend).None? {
      assert t.flying <= t.batch && |t.flying| == |s.flying| + 1;
      MoreReportMore(|t.flying|, setup.width, setup.u, setup.c);
      assert t.spend.tokens == s.spend.tokens && t.spend.cost == s.spend.cost;
    }
  }

  lemma LandKeeps(setup: Setup, s: System, step: Step)
    requires Inv(setup, s) && setup.c >= 0.0 && (step.Record? || step.Lose?) && Enabled(setup, s, step)
    ensures Inv(setup, After(setup, s, step))
  {
    assert |s.flying - {step.task}| == |s.flying| - 1;
    OneReportsLess(|s.flying|, setup.u, setup.c);
  }

  lemma StepKeeps(setup: Setup, s: System, step: Step)
    requires Inv(setup, s) && setup.c >= 0.0 && Enabled(setup, s, step)
    ensures Inv(setup, After(setup, s, step))
  {
    match step
    case Reserve(task) => ReserveKeeps(setup, s, task);
    case Record(_, _) => LandKeeps(setup, s, step);
    case Lose(_) => LandKeeps(setup, s, step);
    case NextBatch(_) =>
  }

  lemma {:induction false} Keeps(setup: Setup, states: seq<System>, k: nat)
    requires Behaviour(setup, states) && setup.c >= 0.0 && setup.limits.maxAttempts >= 0 && k < |states|
    ensures Inv(setup, states[k])
  {
    MoreReportMore(0, setup.width, setup.u, setup.c);
    if k > 0 {
      Keeps(setup, states, k - 1);
      assert MovesAt(setup, states, k);
      var step :| Enabled(setup, states[k - 1], step) && states[k] == After(setup, states[k - 1], step);
      StepKeeps(setup, states[k - 1], step);
    }
  }

  /**
   However the tasks of a batch interleave: attempts never exceed their cap, and every one of them is
   in flight, recorded or lost. Recorded tokens overshoot a positive limit by less than what one full
   batch can report, and so, strictly, does cost.
   */
  lemma NeverOverspent(setup: Setup, states: seq<System>, k: nat)
    requires Behaviour(setup, states) && setup.c >= 0.0 && setup.limits.maxAttempts >= 0 && k < |states|
    ensures var s := states[k];
      && s.spend.attempts <= setup.limits.maxAttempts
      && s.spend.attempts == |s.flying| + s.recorded + s.lost
      && (setup.limits.maxTokens > 0 ==> s.spend.tokens <= setup.limits.maxTokens - 1 + TokensOf(setup.width, setup.u))
      && (setup.limits.maxCost > 0.0 ==> s.spend.cost < setup.limits.maxCost + CostOf(setup.width, setup.c))
  {
    Keeps(setup, states, k);
    MoreReportMore(0, |states[k].flying|, setup.u, setup.c);
  }

  /**
   The same in the terms of the configuration, for every behaviour of a ledger made from it. A limit of zero
   bounds nothing, and nothing is refused for it, whatever is spent.
   */
  lemma ConfiguredBounds(setup: Setup, states: seq<System>, k: nat, maxRetriesPerTask: int, maxTokens: int,
                         maxCost: real, taskCount: int)
    requires setup.limits == LimitsFrom(maxRetriesPerTask, maxTokens, maxCost, taskCount)
    requires Behaviour(setup, states) && setup.c >= 0.0 && k < |states|
    ensures var spend := states[k].spend;
      && (taskCount >= 1 && maxRetriesPerTask >= 0 ==> spend.attempts <= taskCount + taskCount * maxRetriesPerTask)
      && (maxTokens > 0 ==> spend.tokens <= maxTokens - 1 + TokensOf(setup.width, setup.u))
      && (maxCost > 0.0 ==> spend.cost < maxCost + CostOf(setup.width, setup.c))
  {
    NeverOverspent(setup, states, k);
  }

  /** An attempt is refused exactly when one of the configured limits is spent, and says which. */
  lemma RefusedIff(maxRetriesPerTask: int, maxTokens: int, maxCost: real, taskCount: int, spend: Spend)
    ensures var tasks, tries := Max(1, taskCount), 1 + Max(0, maxRetriesPerTask);
      var refused := Exceeded(LimitsFrom(maxRetriesPerTask, maxTokens, maxCost, taskCount), spend);
      var usedUp, tokensGone, costGone :=
        spend.attempts >= tasks * tries, maxTokens != 0 && spend.tokens >= maxTokens,
        maxCost != 0.0 && spend.cost >= maxCost;
      && (refused == Some(Attempts) <==> usedUp)
      && (refused == Some(Tokens) <==> !usedUp && tokensGone)
      && (refused == Some(Cost) <==> !usedUp && !tokensGone && costGone)
  {
  }

  // --- nothing reported is lost ----------------------------------------------------------------------

  /** A behaviour with the steps that make it. */
  ghost predicate Made(setup: Setup, states: seq<System>, steps: seq<Step>) {
    && |states| == |steps| + 1 && states[0] == Nothing
    && forall i :: 0 <= i < |steps| ==> MadeAt(setup, states, steps, i)
  }

  ghost predicate MadeAt(setup: Setup, states: seq<System>, steps: seq<Step>, i: nat)
    requires i < |steps| && |states| == |steps| + 1
  {
    Enabled(setup, states[i], steps[i]) && states[i + 1] == After(setup, states[i], steps[i])
  }

  /** What the recorded attempts reported, one after another. */
  ghost function UsagesOf(steps: seq<Step>): seq<Usage> {
    if steps == [] then []
    else
      var last := steps[|steps| - 1];
      UsagesOf(steps[..|steps| - 1]) + if last.Record? then [last.usage] else []
  }

  ghost function TokensIn(usages: seq<Usage>): int {
    if usages == [] then 0
    else
      var last := usages[|usages| - 1];
      TokensIn(usages[..|usages| - 1]) + if last.reported then last.tokens else 0
  }

  ghost function CostIn(usages: seq<Usage>): real {
    if usages == [] then 0.0
    else
      var last := usages[|usages| - 1];
      CostIn(usages[..|usages| - 1]) + if last.reported then last.cost else 0.0
  }

  ghost function SilentIn(usages: seq<Usage>): nat {
    if usages == [] then 0
    else SilentIn(usages[..|usages| - 1]) + if usages[|usages| - 1].reported then 0 else 1
  }

  ghost predicate AddsUp(s: System, usages: seq<Usage>) {
    && s.spend.tokens == TokensIn(usages) && s.spend.cost == CostIn(usages)
    && s.spend.unmeasured == SilentIn(usages) && s.recorded == |usages|
  }

  /** The ledger adds up to exactly what was reported, and to how many attempts reported nothing. */
  lemma {:induction false} NothingReportedIsLost(setup: Setup, states: seq<System>) returns (steps: seq<Step>)
    requires Behaviour(setup, states)
    ensures Made(setup, states, steps) && AddsUp(states[|states| - 1], UsagesOf(steps))
  {
    if |states| == 1 {
      steps := [];
    } else {
      var last := |states| - 1;
      var init := states[..last];
      assert forall i :: 0 < i < last ==> MovesAt(setup, states, i) ==> MovesAt(setup, init, i);
      var earlier := NothingReportedIsLost(setup, init);
      assert MovesAt(setup, states, last);
      var step :| Enabled(setup, states[last - 1], step) && states[last] == After(setup, states[last - 1], step);
      steps := earlier + [step];
      OneMoreMade(setup, states, earlier, step);
      OneMoreAddsUp(setup, states[last - 1], earlier, step);
    }
  }

  lemma OneMoreMade(setup: Setup, states: seq<System>, earlier: seq<Step>, step: Step)
    requires |states| > 1 && Made(setup, states[..|states| - 1], earlier)
    requires Enabled(setup, states[|states| - 2], step)
    requires states[|states| - 1] == After(setup, states[|states| - 2], step)
    ensures Made(setup, states, earlier + [step])
  {
    var steps := earlier + [step];
    forall i | 0 <= i < |steps| ensures MadeAt(setup, states, steps, i) {
      if i < |earlier| {
        assert MadeAt(setup, states[..|states| - 1], earlier, i);
      }
    }
  }

  lemma OneMoreAddsUp(setup: Setup, s: System, earlier: seq<Step>, step: Step)
    requires Enabled(setup, s, step) && AddsUp(s, UsagesOf(earlier))
    ensures AddsUp(After(setup, s, step), UsagesOf(earlier + [step]))
  {
    var usages := UsagesOf(earlier);
    assert (earlier + [step])[..|earlier|] == earlier;
    if step.Record? {
      assert (usages + [step.usage])[..|usages|] == usages;
    } else {
      assert usages + [] == usages;
    }
  }

  // --- the bound is reached ----------------------------------------------------------------------------

  lemma Extend(setup: Setup, states: seq<System>, step: Step) returns (longer: seq<System>)
    requires Behaviour(setup, states) && Enabled(setup, states[|states| - 1], step)
    ensures Behaviour(setup, longer) && longer[|longer| - 1] == After(setup, states[|states| - 1], step)
  {
    var last := states[|states| - 1];
    longer := states + [After(setup, last, step)];
    assert Moves(setup, last, After(setup, last, step));
    forall i | 0 < i < |longer| ensures MovesAt(setup, longer, i) {
      if i < |states| {
        assert MovesAt(setup, states, i);
      }
    }
  }

  ghost function UpTo(n: nat): set<nat> {
    if n == 0 then {} else UpTo(n - 1) + {n - 1}
  }

  lemma {:induction false} UpToSize(n: nat)
    ensures |UpTo(n)| == n && forall i: nat :: i in UpTo(n) <==> i < n
  {
    if n > 0 {
      UpToSize(n - 1);
    }
  }

  /** One task after another has reported a single token, n of them in all. */
  ghost function OneByOne(setup: Setup, n: nat): System {
    System(Spend(n, n, 0.0, 0), UpTo(setup.width), {}, n, 0)
  }

  lemma {:induction false} SpendsOneByOne(setup: Setup, n: nat) returns (states: seq<System>)
    requires n < setup.limits.maxTokens && n <= setup.limits.maxAttempts && setup.limits.maxCost == 0.0
    requires setup.width >= 1 && setup.u >= 1 && setup.c >= 0.0
    ensures Behaviour(setup, states) && states[|states| - 1] == OneByOne(setup, n)
  {
    UpToSize(setup.width);
    if n == 0 {
      states := Extend(setup, [Nothing], NextBatch(UpTo(setup.width)));
    } else {
      states := SpendsOneByOne(setup, n - 1);
      states := Extend(setup, states, Reserve(0));
      assert states[|states| - 1].flying == {0};
      states := Extend(setup, states, Record(0, Usage(1, 0.0, true)));
      assert states[|states| - 1].flying == {};
    }
  }

  /** A full batch of which n are in flight and the other m have landed, each with all it may report. */
  ghost function Batch(setup: Setup, spent: nat, n: nat, m: nat): System {
    System(Spend(spent + n + m, spent + TokensOf(m, setup.u), 0.0, 0), UpTo(setup.width), UpTo(n), spent + m, 0)
  }

  lemma {:induction false} TakeOff(setup: Setup, spent: nat, before: seq<System>, n: nat) returns (states: seq<System>)
    requires n <= setup.width && spent + setup.width <= setup.limits.maxAttempts
    requires spent < setup.limits.maxTokens && setup.limits.maxCost == 0.0
    requires Behaviour(setup, before) && before[|before| - 1] == OneByOne(setup, spent)
    ensures Behaviour(setup, states) && states[|states| - 1] == Batch(setup, spent, n, 0)
  {
    if n == 0 {
      states := before;
    } else {
      states := TakeOff(setup, spent, before, n - 1);
      TakesOne(setup, spent, n - 1);
      states := Extend(setup, states, Reserve(n - 1));
    }
  }

  lemma TakesOne(setup: Setup, spent: nat, n: nat)
    requires n < setup.width && spent + setup.width <= setup.limits.maxAttempts
    requires spent < setup.limits.maxTokens && setup.limits.maxCost == 0.0
    ensures Enabled(setup, Batch(setup, spent, n, 0), Reserve(n))
    ensures After(setup, Batch(setup, spent, n, 0), Reserve(n)) == Batch(setup, spent, n + 1, 0)
  {
    UpToSize(n);
    UpToSize(setup.width);
    assert Exceeded(setup.limits, Batch(setup, spent, n, 0).spend).None?;
  }

  lemma {:induction false} Land(setup: Setup, spent: nat, before: seq<System>, n: nat) returns (states: seq<System>)
    requires n <= setup.width && setup.c >= 0.0
    requires Behaviour(setup, before) && before[|before| - 1] == Batch(setup, spent, setup.width, 0)
    ensures Behaviour(setup, states) && states[|states| - 1] == Batch(setup, spent, n, setup.width - n)
    decreases setup.width - n
  {
    if n == setup.width {
      states := before;
    } else {
      states := Land(setup, spent, before, n + 1);
      LandsOne(setup, spent, n, setup.width - n - 1);
      states := Extend(setup, states, Record(n, Usage(setup.u, 0.0, true)));
    }
  }

  lemma LandsOne(setup: Setup, spent: nat, n: nat, m: nat)
    requires setup.c >= 0.0
    ensures var step := Record(n, Usage(setup.u, 0.0, true));
      && Enabled(setup, Batch(setup, spent, n + 1, m), step)
      && After(setup, Batch(setup, spent, n + 1, m), step) == Batch(setup, spent, n, m + 1)
  {
    UpToSize(n);
    UpToSize(n + 1);
    assert UpTo(n + 1) - {n} == UpTo(n);
    OneReportsLess(m + 1, setup.u, setup.c);
  }

  /**
   The token bound cannot be improved: unless attempts run out first, tasks that report one token at
   a time up to just below the limit, and then a full batch that reports all it may, reach it exactly.
   */
  lemma TokenBoundIsReached(setup: Setup) returns (states: seq<System>)
    requires setup.limits.maxTokens >= 1 && setup.limits.maxCost == 0.0
    requires setup.width >= 1 && setup.u >= 1 && setup.c >= 0.0
    requires setup.limits.maxTokens - 1 + setup.width <= setup.limits.maxAttempts
    ensures Behaviour(setup, states)
    ensures states[|states| - 1].spend.tokens == setup.limits.maxTokens - 1 + TokensOf(setup.width, setup.u)
  {
    var spent := setup.limits.maxTokens - 1;
    states := SpendsOneByOne(setup, spent);
    states := TakeOff(setup, spent, states, setup.width);
    states := Land(setup, spent, states, 0);
  }
}
