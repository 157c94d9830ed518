/** Any number of starts of locked plans under way at once (RunService.StartAsync). */
module StartCalls {
  import opened Domain
  import opened PlanLifecycle
  import WriteScopes
  import LockedPlans
  import TaskGraph

  /**
   How far a start has come: it holds the plan it read as locked, has saved a run, has spent the
   plan, has launched the engine; or where an exception or a crash cut it.
   */
  datatype Phase =
    | Holding
    | Saved(run: RunId)
    | Spending(run: RunId)
    | Done(run: RunId)
    | CutBefore
    | CutBetween(run: RunId)
    | CutAfter(run: RunId)

  /** A call of StartAsync and the plan it read. */
  datatype Start = Start(plan: Plan, phase: Phase)

  /** The stored state, every start so far, and which plan each stored run was made from. */
  datatype System = System(store: State, starts: map<nat, Start>, of: map<RunId, PlanId>)

  datatype Step =
    | Create(drawn: Plan)
    | Lock(id: PlanId)
    | Begin(c: nat, id: PlanId)
    | SaveRun(c: nat, run: RunId, now: Moment)
    | Spend(c: nat)
    | LaunchEngine(c: nat)
    | Cut(c: nat)

  predicate Finished(phase: Phase) {
    phase.Done? || phase.CutBefore? || phase.CutBetween? || phase.CutAfter?
  }

  /** Under way, and the plan it read not yet spent by it. */
  predicate Unspent(phase: Phase) {
    phase.Holding? || phase.Saved?
  }

  predicate HasSpent(phase: Phase) {
    phase.Spending? || phase.Done? || phase.CutAfter?
  }

  predicate HasSaved(phase: Phase) {
    !phase.Holding? && !phase.CutBefore?
  }

  predicate WasCut(phase: Phase) {
    phase.CutBefore? || phase.CutBetween? || phase.CutAfter?
  }

  function CutFrom(phase: Phase): Phase
    requires !Finished(phase)
  {
    match phase
    case Holding => CutBefore
    case Saved(run) => CutBetween(run)
    case Spending(run) => CutAfter(run)
  }

  ghost predicate Enabled(s: System, step: Step) {
    match step
    case Create(drawn) => drawn.id !in s.store.plans && drawn.state == PlanState.Draft && ValidGraph(drawn.tasks)
    case Lock(id) => Lockable(s.store.plans, id)
    case Begin(c, id) => c !in s.starts && Startable(s.store.plans, id)
    case SaveRun(c, run, now) => c in s.starts && s.starts[c].phase.Holding? && run !in s.store.runs
    case Spend(c) =>
      && c in s.starts && s.starts[c].phase.Saved?
      && Writable(s.store.plans, s.starts[c].plan.(state := PlanState.Consumed))
    case LaunchEngine(c) => c in s.starts && s.starts[c].phase.Spending?
    case Cut(c) => c in s.starts && !Finished(s.starts[c].phase)
  }

  ghost function After(s: System, step: Step): System
    requires Enabled(s, step)
  {
    match step
    case Create(drawn) => s.(store := WithPlan(s.store, drawn))
    case Lock(id) => s.(store := WithPlan(s.store, s.store.plans[id].(state := PlanState.Locked)))
    case Begin(c, id) => s.(starts := s.starts[c := Start(s.store.plans[id], Holding)])
    case SaveRun(c, run, now) =>
      Stepped(s, c, Saved(run)).(store := Orphaned(s.store, RunFor(s.starts[c].plan, run, now)),
                                 of := s.of[run := s.starts[c].plan.id])
    case Spend(c) => Stepped(s, c, Spending(s.starts[c].phase.run)).(store := Spent(s.store, s.starts[c].plan))
    case LaunchEngine(c) =>
      var run := s.starts[c].phase.run;
      Stepped(s, c, Done(run)).(store := Launched(s.store, s.starts[c].plan, run))
    case Cut(c) => Stepped(s, c, CutFrom(s.starts[c].phase))
  }

  function Stepped(s: System, c: nat, phase: Phase): System
    requires c in s.starts
  {
    s.(starts := s.starts[c := s.starts[c].(phase := phase)])
  }

  /** A start begins only when no other is under way. */
  ghost predicate Alone(s: System, step: Step) {
    step.Begin? ==> forall c :: c in s.starts ==> Finished(s.starts[c].phase)
  }

  ghost predicate Moves(a: System, b: System, alone: bool) {
    exists step :: Enabled(a, step) && b == After(a, step) && (alone ==> Alone(a, step))
  }

  /** A history with any interleaving of starts, or with one start at a time. */
  ghost predicate History(states: seq<System>, alone: bool) {
    && states != [] && states[0] == System(State(map[], map[], []), map[], map[])
    && forall i {:trigger MovesAt(states, i, alone)} :: 0 < i < |states| ==> MovesAt(states, i, alone)
  }

  ghost predicate MovesAt(states: seq<System>, i: nat, alone: bool)
    requires 0 < i < |states|
  {
    Moves(states[i - 1], states[i], alone)
  }

  lemma AloneIsAHistory(states: seq<System>)
    requires History(states, true)
    ensures History(states, false)
  {
    forall i | 0 < i < |states| ensures MovesAt(states, i, false) {
      assert MovesAt(states, i, true);
    }
  }

  // --- what every history keeps -----------------------------------------------------------------------

  ghost predicate PlanFits(plans: Plans, id: PlanId)
    requires id in plans
  {
    && plans[id].id == id && ValidGraph(plans[id].tasks)
    && (plans[id].state != PlanState.Draft ==> WriteScopes.NoConflicts(plans[id].tasks))
  }

  /** What a start read is still what the store holds, but for the state. */
  ghost predicate StartFits(s: System, c: nat)
    requires c in s.starts
  {
    var start, plans := s.starts[c], s.store.plans;
    && start.plan.state == PlanState.Locked && start.plan.id in plans
    && plans[start.plan.id].state != PlanState.Draft
    && start.plan == plans[start.plan.id].(state := PlanState.Locked)
    && (HasSpent(start.phase) ==> plans[start.plan.id].state == PlanState.Consumed)
    && (HasSaved(start.phase) ==> start.phase.run in s.of && s.of[start.phase.run] == start.plan.id)
  }

  /** The start that saved the run. */
  ghost predicate SavedBy(s: System, run: RunId, c: nat) {
    c in s.starts && HasSaved(s.starts[c].phase) && s.starts[c].phase.run == run
  }

  ghost predicate RunFits(s: System, run: RunId) {
    exists c :: SavedBy(s, run, c)
  }

  ghost predicate LaunchFits(s: System, k: nat)
    requires k < |s.store.launches|
  {
    exists c :: LaunchedBy(s, k, c)
  }

  ghost predicate LaunchedBy(s: System, k: nat, c: nat)
    requires k < |s.store.launches|
  {
    var launch := s.store.launches[k];
    SavedBy(s, launch.run, c) && s.starts[c].phase.Done? && s.starts[c].plan == launch.plan
  }

  ghost predicate LaunchListed(s: System, c: nat)
    requires c in s.starts
  {
    s.starts[c].phase.Done? ==> Launch(s.starts[c].phase.run, s.starts[c].plan) in s.store.launches
  }

  ghost predicate OneStartEach(s: System) {
    forall c, d :: (c in s.starts && d in s.starts && HasSaved(s.starts[c].phase) && HasSaved(s.starts[d].phase) &&
                    s.starts[c].phase.run == s.starts[d].phase.run) ==> c == d
  }

  ghost predicate OneLaunchEach(s: System) {
    forall k, l :: 0 <= k < l < |s.store.launches| ==> s.store.launches[k].run != s.store.launches[l].run
  }

  ghost predicate Inv(s: System) {
    && (forall id {:trigger PlanFits(s.store.plans, id)} :: id in s.store.plans ==> PlanFits(s.store.plans, id))
    && (forall c {:trigger StartFits(s, c)} :: c in s.starts ==> StartFits(s, c))
    && s.of.Keys == s.store.runs.Keys
    && (forall run {:trigger RunFits(s, run)} :: run in s.of ==> RunFits(s, run))
    && (forall k {:trigger LaunchFits(s, k)} :: 0 <= k < |s.store.launches| ==> LaunchFits(s, k))
    && (forall c {:trigger LaunchListed(s, c)} :: c in s.starts ==> LaunchListed(s, c))
    && OneStartEach(s) && OneLaunchEach(s)
  }

  lemma PlansKept(s: System, step: Step, id: PlanId)
    requires Inv(s) && Enabled(s, step) && id in After(s, step).store.plans
    ensures PlanFits(After(s, step).store.plans, id)
  {
    if id in s.store.plans {
      assert PlanFits(s.store.plans, id);
    }
    match step
    case Spend(c) =>
      assert StartFits(s, c);
      assert PlanFits(s.store.plans, s.starts[c].plan.id);
      assert s.starts[c].plan.tasks == s.store.plans[s.starts[c].plan.id].tasks;
    case Lock(locked) => assert PlanFits(s.store.plans, locked);
    case _ =>
  }

  lemma StartsKept(s: System, step: Step, c: nat)
    requires Inv(s) && Enabled(s, step) && c in After(s, step).starts
    ensures StartFits(After(s, step), c)
  {
    if c in s.starts {
      assert StartFits(s, c);
    }
    match step
    case Spend(d) => assert StartFits(s, d);
    case Begin(d, id) => assert PlanFits(s.store.plans, id);
    case Lock(id) => assert PlanFits(s.store.plans, id);
    case _ =>
  }

  lemma SavedStays(s: System, step: Step, run: RunId, c: nat)
    requires Enabled(s, step) && SavedBy(s, run, c)
    ensures SavedBy(After(s, step), run, c) && After(s, step).starts[c].plan == s.starts[c].plan
    ensures s.starts[c].phase.Done? ==> After(s, step).starts[c].phase.Done?
  {
  }

  lemma RunsKept(s: System, step: Step, run: RunId)
    requires Inv(s) && Enabled(s, step) && run in After(s, step).of
    ensures RunFits(After(s, step), run)
  {
    if run in s.of {
      assert RunFits(s, run);
      var c :| SavedBy(s, run, c);
      SavedStays(s, step, run, c);
    } else {
      assert SavedBy(After(s, step), run, step.c);
    }
  }

  lemma LaunchesKept(s: System, step: Step, k: nat)
    requires Inv(s) && Enabled(s, step) && k < |After(s, step).store.launches|
    ensures LaunchFits(After(s, step), k)
  {
    if k < |s.store.launches| {
      assert LaunchFits(s, k);
      var c :| LaunchedBy(s, k, c);
      SavedStays(s, step, s.store.launches[k].run, c);
      assert LaunchedBy(After(s, step), k, c);
    } else {
      assert LaunchedBy(After(s, step), k, step.c);
    }
  }

  lemma ListedKept(s: System, step: Step, c: nat)
    requires Inv(s) && Enabled(s, step) && c in After(s, step).starts
    ensures LaunchListed(After(s, step), c)
  {
    if c in s.starts {
      assert LaunchListed(s, c);
    }
  }

  lemma OnlyOnceKept(s: System, step: Step)
    requires Inv(s) && Enabled(s, step)
    ensures OneStartEach(After(s, step)) && OneLaunchEach(After(s, step))
  {
    if step.SaveRun? {
      forall c | c in s.starts && HasSaved(s.starts[c].phase) ensures s.starts[c].phase.run != step.run {
        assert StartFits(s, c);
      }
    }
    if step.LaunchEngine? {
      forall k | 0 <= k < |s.store.launches| ensures s.store.launches[k].run != s.starts[step.c].phase.run {
        assert LaunchFits(s, k);
      }
    }
  }

  lemma InvKept(s: System, step: Step)
    requires Inv(s) && Enabled(s, step)
    ensures Inv(After(s, step))
  {
    var t := After(s, step);
    forall id | id in t.store.plans ensures PlanFits(t.store.plans, id) { PlansKept(s, step, id); }
    forall c | c in t.starts ensures StartFits(t, c) { StartsKept(s, step, c); }
    forall run | run in t.of ensures RunFits(t, run) { RunsKept(s, step, run); }
    forall k | 0 <= k < |t.store.launches| ensures LaunchFits(t, k) { LaunchesKept(s, step, k); }
    forall c | c in t.starts ensures LaunchListed(t, c) { ListedKept(s, step, c); }
    OnlyOnceKept(s, step);
  }

  lemma {:induction false} AlwaysInv(states: seq<System>, k: nat)
    requires History(states, false) && k < |states|
    ensures Inv(states[k])
  {
    if k > 0 {
      AlwaysInv(states, k - 1);
      assert MovesAt(states, k, false);
      var step :| Enabled(states[k - 1], step) && states[k] == After(states[k - 1], step);
      InvKept(states[k - 1], step);
    }
  }

  function Rank(state: PlanState): nat {
    match state case Draft => 0 case Locked => 1 case Consumed => 2
  }

  /** Whatever starts overlap, a plan never disappears or moves back, and only its state ever changes. */
  lemma {:induction false} PlansOnlyMoveOn(states: seq<System>, i: nat, j: nat, id: PlanId)
    requires History(states, false) && i <= j < |states| && id in states[i].store.plans
    ensures var earlier, later := states[i].store.plans, states[j].store.plans;
      && id in later && Rank(earlier[id].state) <= Rank(later[id].state)
      && later[id] == earlier[id].(state := later[id].state)
    decreases j
  {
    if i < j {
      PlansOnlyMoveOn(states, i, j - 1, id);
      assert MovesAt(states, j, false);
      AlwaysInv(states, j - 1);
      var step :| Enabled(states[j - 1], step) && states[j] == After(states[j - 1], step);
      PlanMovesOn(states[j - 1], step, id);
    }
  }

  lemma PlanMovesOn(s: System, step: Step, id: PlanId)
    requires Inv(s) && Enabled(s, step) && id in s.store.plans
    ensures var earlier, later := s.store.plans, After(s, step).store.plans;
      && id in later && Rank(earlier[id].state) <= Rank(later[id].state)
      && later[id] == earlier[id].(state := later[id].state)
  {
    match step
    case Spend(c) => assert StartFits(s, c);
    case Lock(locked) => assert PlanFits(s.store.plans, locked);
    case _ =>
  }

  /** An engine runs a plan as it was locked, valid and without conflicts, and the store still holds it, spent. */
  lemma LaunchedAsLocked(states: seq<System>, k: nat, l: nat)
    requires History(states, false) && k < |states| && l < |states[k].store.launches|
    ensures var plan := states[k].store.launches[l].plan;
      && plan.id in states[k].store.plans && plan.state == PlanState.Locked
      && states[k].store.plans[plan.id] == plan.(state := PlanState.Consumed)
      && ValidGraph(plan.tasks) && WriteScopes.NoConflicts(plan.tasks)
  {
    AlwaysInv(states, k);
    var s := states[k];
    assert LaunchFits(s, l);
    var c :| LaunchedBy(s, l, c);
    assert StartFits(s, c) && PlanFits(s.store.plans, s.starts[c].plan.id);
  }

  /**
   So a task graph an engine was given can race exactly through entries whose spelling hides that one
   lies within the other, and never if all its entries are straight.
   */
  lemma LaunchedPlanRacesIff(root: seq<string>, states: seq<System>, k: nat, l: nat)
    requires History(states, false) && k < |states| && l < |states[k].store.launches|
    ensures var tasks := states[k].store.launches[l].plan.tasks;
      && ValidGraph(tasks)
      && (LockedPlans.CanRace(root, tasks) <==>
          exists i: nat, j: nat :: LockedPlans.HiddenBesideAnother(root, tasks, i, j))
      && (LockedPlans.Straight(root, tasks) ==> !LockedPlans.CanRace(root, tasks))
  {
    LaunchedAsLocked(states, k, l);
    var tasks := states[k].store.launches[l].plan.tasks;
    LockedPlans.LockedPlanRacesIff(root, tasks);
    LockedPlans.StraightCannotRace(root, tasks);
  }

  // --- starts that overlap ----------------------------------------------------------------------------

  lemma {:induction false} StartStays(states: seq<System>, i: nat, j: nat, c: nat)
    requires History(states, false) && i <= j < |states| && c in states[i].starts
    ensures c in states[j].starts && states[j].starts[c].plan == states[i].starts[c].plan
    ensures HasSpent(states[i].starts[c].phase) ==> HasSpent(states[j].starts[c].phase)
    ensures Finished(states[i].starts[c].phase) ==> states[j].starts[c].phase == states[i].starts[c].phase
    ensures Unspent(states[j].starts[c].phase) ==> Unspent(states[i].starts[c].phase)
    decreases j
  {
    if i < j {
      StartStays(states, i, j - 1, c);
      assert MovesAt(states, j, false);
    }
  }

  /** Both starts are of one plan, and at this point both hold it without having spent it. */
  ghost predicate BothUnspent(s: System, c: nat, d: nat) {
    && c in s.starts && d in s.starts && Unspent(s.starts[c].phase) && Unspent(s.starts[d].phase)
  }

  ghost predicate OnePlan(s: System, c: nat, d: nat) {
    c != d && c in s.starts && d in s.starts && s.starts[c].plan.id == s.starts[d].plan.id
  }

  lemma SpentMeansConsumed(s: System, d: nat)
    requires Inv(s) && d in s.starts && HasSpent(s.starts[d].phase)
    ensures s.starts[d].plan.id in s.store.plans && s.store.plans[s.starts[d].plan.id].state == PlanState.Consumed
  {
    assert StartFits(s, d);
  }

  /** Who still holds a plan that another start has spent must have read it before. */
  lemma {:induction false} HeldBefore(states: seq<System>, k: nat, c: nat, d: nat) returns (j: nat)
    requires History(states, false) && k < |states| && OnePlan(states[k], c, d)
    requires Unspent(states[k].starts[c].phase) && HasSpent(states[k].starts[d].phase)
    ensures j <= k && BothUnspent(states[j], c, d)
  {
    assert k > 0;
    AlwaysInv(states, k - 1);
    AlwaysInv(states, k);
    assert MovesAt(states, k, false);
    var step :| Enabled(states[k - 1], step) && states[k] == After(states[k - 1], step);
    NotJustBegun(states[k - 1], step, c, d);
    if HasSpent(states[k - 1].starts[d].phase) {
      j := HeldBefore(states, k - 1, c, d);
    } else {
      j := k - 1;
    }
  }

  lemma NotJustBegun(s: System, step: Step, c: nat, d: nat)
    requires Inv(s) && Enabled(s, step) && OnePlan(After(s, step), c, d)
    requires Unspent(After(s, step).starts[c].phase) && HasSpent(After(s, step).starts[d].phase)
    ensures OnePlan(s, c, d) && Unspent(s.starts[c].phase)
    ensures HasSpent(s.starts[d].phase) || Unspent(s.starts[d].phase)
  {
    if step.Begin? && step.c == c {
      assert PlanFits(s.store.plans, step.id);
      SpentMeansConsumed(s, d);
      assert false;
    }
  }

  lemma SpentWasBegun(s: System, step: Step, c: nat)
    requires Enabled(s, step) && c in After(s, step).starts && HasSpent(After(s, step).starts[c].phase)
    ensures c in s.starts && s.starts[c].plan == After(s, step).starts[c].plan
    ensures HasSpent(s.starts[c].phase) || (step == Spend(c) && Unspent(s.starts[c].phase))
  {
  }

  lemma OneStepAtATime(s: System, step: Step, c: nat, d: nat)
    requires Enabled(s, step) && c != d && step == Spend(c) && d in s.starts && HasSpent(After(s, step).starts[d].phase)
    ensures HasSpent(s.starts[d].phase)
  {
  }

  /** Two starts that spent one plan both held it at some moment before either had spent it. */
  lemma {:induction false} BothHeldBefore(states: seq<System>, k: nat, c: nat, d: nat) returns (j: nat)
    requires History(states, false) && k < |states| && OnePlan(states[k], c, d)
    requires HasSpent(states[k].starts[c].phase) && HasSpent(states[k].starts[d].phase)
    ensures j <= k && BothUnspent(states[j], c, d)
  {
    assert k > 0;
    assert MovesAt(states, k, false);
    var step :| Enabled(states[k - 1], step) && states[k] == After(states[k - 1], step);
    SpentWasBegun(states[k - 1], step, c);
    SpentWasBegun(states[k - 1], step, d);
    if !HasSpent(states[k - 1].starts[c].phase) {
      OneStepAtATime(states[k - 1], step, c, d);
      j := HeldBefore(states, k - 1, c, d);
    } else if !HasSpent(states[k - 1].starts[d].phase) {
      j := HeldBefore(states, k - 1, d, c);
    } else {
      j := BothHeldBefore(states, k - 1, c, d);
    }
  }

  lemma Extend(states: seq<System>, step: Step) returns (longer: seq<System>)
    requires History(states, false) && Enabled(states[|states| - 1], step)
    ensures History(longer, false) && states <= longer && longer[|longer| - 1] == After(states[|states| - 1], step)
  {
    var last := states[|states| - 1];
    longer := states + [After(last, step)];
    assert Moves(last, After(last, step), false);
    forall i | 0 < i < |longer| ensures MovesAt(longer, i, false) {
      if i < |states| {
        assert MovesAt(states, i, false);
      }
    }
  }

  /** A start that was not cut can go on to launch its engine, whatever became of the others. */
  lemma CanLaunch(states: seq<System>, c: nat, run: RunId, now: Moment) returns (longer: seq<System>)
    requires History(states, false) && c in states[|states| - 1].starts && !WasCut(states[|states| - 1].starts[c].phase)
    requires run !in states[|states| - 1].store.runs
    ensures History(longer, false) && states <= longer
    ensures var s, t := states[|states| - 1], longer[|longer| - 1];
      && c in t.starts && t.starts == s.starts[c := t.starts[c]] && t.starts[c].phase.Done?
      && t.store.runs.Keys <= s.store.runs.Keys + {run}
      && (s.starts[c].phase.Holding? ==> t.store.launches == s.store.launches + [Launch(run, s.starts[c].plan)])
  {
    longer := states;
    if longer[|longer| - 1].starts[c].phase.Holding? {
      longer := Extend(longer, SaveRun(c, run, now));
    }
    if longer[|longer| - 1].starts[c].phase.Saved? {
      AlwaysInv(longer, |longer| - 1);
      assert StartFits(longer[|longer| - 1], c);
      longer := Extend(longer, Spend(c));
    }
    if longer[|longer| - 1].starts[c].phase.Spending? {
      longer := Extend(longer, LaunchEngine(c));
    }
  }

  ghost predicate BothLaunched(s: System, c: nat, d: nat) {
    c in s.starts && d in s.starts && s.starts[c].phase.Done? && s.starts[d].phase.Done?
  }

  ghost predicate CanBothLaunch(states: seq<System>, c: nat, d: nat) {
    exists longer :: History(longer, false) && states <= longer && BothLaunched(longer[|longer| - 1], c, d)
  }

  ghost predicate HeldTogether(states: seq<System>, c: nat, d: nat) {
    exists j :: 0 <= j < |states| && BothUnspent(states[j], c, d)
  }

  /**
   Two starts of one plan can both come to launch an engine exactly when neither was cut and both
   held the plan at some moment before either had spent it. The store does not stop the second: its
   write changes nothing and is taken.
   */
  lemma BothLaunchIff(states: seq<System>, c: nat, d: nat, first: RunId, second: RunId)
    requires History(states, false) && OnePlan(states[|states| - 1], c, d)
    requires first != second && first !in states[|states| - 1].store.runs && second !in states[|states| - 1].store.runs
    ensures CanBothLaunch(states, c, d) <==>
      && !WasCut(states[|states| - 1].starts[c].phase) && !WasCut(states[|states| - 1].starts[d].phase)
      && HeldTogether(states, c, d)
  {
    var last := |states| - 1;
    if !WasCut(states[last].starts[c].phase) && !WasCut(states[last].starts[d].phase) {
      var longer := CanLaunch(states, c, first, 0);
      longer := CanLaunch(longer, d, second, 0);
      assert BothLaunched(longer[|longer| - 1], c, d);
      BothLaunchedHeld(states, longer, c, d);
    }
    if CanBothLaunch(states, c, d) {
      var longer :| History(longer, false) && states <= longer && BothLaunched(longer[|longer| - 1], c, d);
      BothLaunchedHeld(states, longer, c, d);
    }
  }

  lemma BothLaunchedHeld(states: seq<System>, longer: seq<System>, c: nat, d: nat)
    requires History(longer, false) && states != [] && states <= longer
    requires OnePlan(states[|states| - 1], c, d) && BothLaunched(longer[|longer| - 1], c, d)
    ensures HeldTogether(states, c, d)
    ensures !WasCut(states[|states| - 1].starts[c].phase) && !WasCut(states[|states| - 1].starts[d].phase)
  {
    var last := |states| - 1;
    StartStays(longer, last, |longer| - 1, c);
    StartStays(longer, last, |longer| - 1, d);
    var j := BothHeldBefore(longer, |longer| - 1, c, d);
    if j > last {
      StartStays(longer, last, j, c);
      StartStays(longer, last, j, d);
      assert BothUnspent(states[last], c, d);
    } else {
      assert BothUnspent(states[j], c, d);
    }
  }

  // --- one start at a time ---------------------------------------------------------------------------

  ghost predicate UnderWay(s: System, c: nat) {
    c in s.starts && !Finished(s.starts[c].phase)
  }

  lemma {:induction false} AtMostOneUnderWay(states: seq<System>, k: nat, c: nat, d: nat)
    requires History(states, true) && k < |states| && UnderWay(states[k], c) && UnderWay(states[k], d)
    ensures c == d
  {
    if k > 0 {
      assert MovesAt(states, k, true);
      var step :| Enabled(states[k - 1], step) && states[k] == After(states[k - 1], step) && Alone(states[k - 1], step);
      if UnderWay(states[k - 1], c) && UnderWay(states[k - 1], d) {
        AtMostOneUnderWay(states, k - 1, c, d);
      }
    }
  }

  lemma NeverHeldTogether(states: seq<System>, j: nat, c: nat, d: nat)
    requires History(states, true) && j < |states| && BothUnspent(states[j], c, d)
    ensures c == d
  {
    assert UnderWay(states[j], c) && UnderWay(states[j], d);
    AtMostOneUnderWay(states, j, c, d);
  }

  /** Of two starts of one plan that saved a run, one was cut before it spent the plan. */
  lemma OneOfTwoWasCut(states: seq<System>, k: nat, c: nat, d: nat)
    requires History(states, true) && k < |states| && OnePlan(states[k], c, d)
    requires HasSaved(states[k].starts[c].phase) && HasSaved(states[k].starts[d].phase)
    ensures states[k].starts[c].phase.CutBetween? || states[k].starts[d].phase.CutBetween?
  {
    AloneIsAHistory(states);
    var x, y := states[k].starts[c].phase, states[k].starts[d].phase;
    if HasSpent(x) && HasSpent(y) {
      var j := BothHeldBefore(states, k, c, d);
      NeverHeldTogether(states, j, c, d);
    } else if Unspent(x) && HasSpent(y) {
      var j := HeldBefore(states, k, c, d);
      NeverHeldTogether(states, j, c, d);
    } else if HasSpent(x) && Unspent(y) {
      var j := HeldBefore(states, k, d, c);
      NeverHeldTogether(states, j, d, c);
    } else if Unspent(x) && Unspent(y) {
      NeverHeldTogether(states, k, c, d);
    }
  }

  /** Two stored runs were made from the plan. */
  ghost predicate TwoRuns(s: System, plan: PlanId) {
    exists a, b :: a in s.of && b in s.of && a != b && s.of[a] == plan && s.of[b] == plan
  }

  /** One start of the plan was cut between its two writes, and another one saved a run as well. */
  ghost predicate CutAndStartedAgain(s: System, plan: PlanId) {
    exists c, d :: OnePlan(s, c, d) && s.starts[c].plan.id == plan &&
      s.starts[c].phase.CutBetween? && HasSaved(s.starts[d].phase)
  }

  /**
   With one start at a time, a plan comes to more than one run row exactly when a start of it was cut
   between saving its run and spending the plan, and the plan was started again.
   */
  lemma TwoRunsIff(states: seq<System>, k: nat, plan: PlanId)
    requires History(states, true) && k < |states|
    ensures TwoRuns(states[k], plan) <==> CutAndStartedAgain(states[k], plan)
  {
    AloneIsAHistory(states);
    AlwaysInv(states, k);
    var s := states[k];
    if a, b :| a in s.of && b in s.of && a != b && s.of[a] == plan && s.of[b] == plan {
      var c, d := StartsOfTwoRuns(s, plan, a, b);
      OneOfTwoWasCut(states, k, c, d);
      assert OnePlan(s, d, c);
    }
    if c, d :|
      && OnePlan(s, c, d) && s.starts[c].plan.id == plan
      && s.starts[c].phase.CutBetween? && HasSaved(s.starts[d].phase)
    {
      RunsOfTwoStarts(s, plan, c, d);
    }
  }

  lemma StartsOfTwoRuns(s: System, plan: PlanId, a: RunId, b: RunId) returns (c: nat, d: nat)
    requires Inv(s) && a in s.of && b in s.of && a != b && s.of[a] == plan && s.of[b] == plan
    ensures OnePlan(s, c, d) && s.starts[c].plan.id == plan && HasSaved(s.starts[c].phase)
    ensures HasSaved(s.starts[d].phase)
  {
    assert RunFits(s, a) && RunFits(s, b);
    c :| SavedBy(s, a, c);
    d :| SavedBy(s, b, d);
    assert StartFits(s, c) && StartFits(s, d);
  }

  lemma RunsOfTwoStarts(s: System, plan: PlanId, c: nat, d: nat)
    requires Inv(s) && OnePlan(s, c, d) && s.starts[c].plan.id == plan
    requires HasSaved(s.starts[c].phase) && HasSaved(s.starts[d].phase)
    ensures TwoRuns(s, plan)
  {
    assert StartFits(s, c) && StartFits(s, d);
    assert s.of[s.starts[c].phase.run] == plan && s.of[s.starts[d].phase.run] == plan;
  }

  /**
   With one start at a time, none of them cut and none under way, every stored run has its one engine,
   and no plan has a second run.
   */
  lemma OneRunPerPlan(states: seq<System>, k: nat)
    requires History(states, true) && k < |states|
    requires forall c :: c in states[k].starts ==> states[k].starts[c].phase.Done?
    ensures forall plan :: !TwoRuns(states[k], plan)
    ensures forall run :: run in states[k].store.runs ==> HasOneLaunch(states[k], run)
  {
    AloneIsAHistory(states);
    AlwaysInv(states, k);
    var s := states[k];
    forall plan ensures !TwoRuns(s, plan) {
      TwoRunsIff(states, k, plan);
    }
    forall run | run in s.store.runs ensures HasOneLaunch(s, run) {
      assert RunFits(s, run);
      var c :| SavedBy(s, run, c);
      assert StartFits(s, c) && LaunchListed(s, c);
      var l :| 0 <= l < |s.store.launches| && s.store.launches[l] == Launch(run, s.starts[c].plan);
      assert LaunchAt(s, run, l);
    }
  }

  ghost predicate LaunchAt(s: System, run: RunId, l: nat) {
    && l < |s.store.launches| && run in s.of
    && s.store.launches[l].run == run && s.store.launches[l].plan.id == s.of[run]
    && forall m :: 0 <= m < |s.store.launches| && s.store.launches[m].run == run ==> m == l
  }

  ghost predicate HasOneLaunch(s: System, run: RunId) {
    exists l :: LaunchAt(s, run, l)
  }

  /** One start at a time, cut short or not, a plan never comes to a second engine. */
  lemma OneEnginePerPlan(states: seq<System>, k: nat, l: nat, m: nat)
    requires History(states, true) && k < |states|
    requires l < |states[k].store.launches| && m < |states[k].store.launches|
    requires states[k].store.launches[l].plan.id == states[k].store.launches[m].plan.id
    ensures l == m
  {
    AloneIsAHistory(states);
    AlwaysInv(states, k);
    var s := states[k];
    assert LaunchFits(s, l) && LaunchFits(s, m);
    var c :| LaunchedBy(s, l, c);
    var d :| LaunchedBy(s, m, d);
    if c != d {
      OneOfTwoWasCut(states, k, c, d);
    }
  }

  // --- two engines on one plan -----------------------------------------------------------------------------

  /** Both starts read the plan before either spends it, and both launch. */
  lemma TwoEnginesOnOnePlan(drawn: Plan, first: RunId, second: RunId, now: Moment) returns (states: seq<System>)
    requires drawn.state == PlanState.Draft && ValidGraph(drawn.tasks) && WriteScopes.NoConflicts(drawn.tasks)
    requires first != second
    ensures History(states, false)
    ensures var launches := states[|states| - 1].store.launches;
      |launches| == 2 && launches[0].run != launches[1].run && launches[0].plan.id == launches[1].plan.id == drawn.id
  {
    states := Extend([System(State(map[], map[], []), map[], map[])], Create(drawn));
    states := Extend(states, Lock(drawn.id));
    states := Extend(states, Begin(0, drawn.id));
    states := Extend(states, Begin(1, drawn.id));
    var locked := drawn.(state := PlanState.Locked);
    assert states[|states| - 1].starts == map[0 := Start(locked, Holding), 1 := Start(locked, Holding)];
    states := BothGoOn(states, locked, first, second, now);
  }

  lemma BothGoOn(before: seq<System>, plan: Plan, first: RunId, second: RunId, now: Moment)
    returns (states: seq<System>)
    requires History(before, false) && first != second
    requires var s := before[|before| - 1];
      && s.starts == map[0 := Start(plan, Holding), 1 := Start(plan, Holding)]
      && s.store.runs == map[] && s.store.launches == []
    ensures History(states, false)
    ensures var launches := states[|states| - 1].store.launches;
      |launches| == 2 && launches[0].run != launches[1].run && launches[0].plan.id == launches[1].plan.id == plan.id
  {
    states := CanLaunch(before, 0, first, now);
    states := CanLaunch(states, 1, second, now);
    assert states[|states| - 1].store.launches == [Launch(first, plan)] + [Launch(second, plan)];
  }
}
