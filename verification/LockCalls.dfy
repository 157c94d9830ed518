/**
 One plan under overlapping calls of LockAsync and StartAsync, where SaveAsync looks at the stored
 plan in one step and writes in another.
 */
module LockCalls {
  import opened Domain
  import opened PlanLifecycle
  import WriteScopes

  datatype Kind = ToLock | ToStart

  /**
   The call has found the plan in the state it needs; SaveAsync has looked and will write; what it was
   to save is saved; the engine is launched; or an exception or a crash ended it.
   */
  datatype Phase = Found | Cleared | Saved | Launched | Over

  datatype Call = Call(kind: Kind, plan: Plan, phase: Phase)

  /** The stored plan, which is a draft at first, and the calls on it. */
  datatype System = System(stored: Plan, calls: map<nat, Call>)

  datatype Step =
    | Find(c: nat, kind: Kind)
    | Look(c: nat)
    | Write(c: nat)
    | LaunchEngine(c: nat)
    | Cut(c: nat)

  function Incoming(call: Call): Plan {
    call.plan.(state := if call.kind.ToLock? then PlanState.Locked else PlanState.Consumed)
  }

  ghost predicate Enabled(s: System, step: Step) {
    match step
    case Find(c, kind) =>
      && c !in s.calls
      && if kind.ToLock? then s.stored.state == PlanState.Draft && WriteScopes.NoConflicts(s.stored.tasks)
         else s.stored.state == PlanState.Locked
    case Look(c) => c in s.calls && s.calls[c].phase.Found?
    case Write(c) => c in s.calls && s.calls[c].phase.Cleared?
    case LaunchEngine(c) => c in s.calls && s.calls[c].kind.ToStart? && s.calls[c].phase.Saved?
    case Cut(c) => c in s.calls && UnderWay(s.calls[c])
  }

  predicate UnderWay(call: Call) {
    call.phase.Found? || call.phase.Cleared? || (call.kind.ToStart? && call.phase.Saved?)
  }

  /** A write that may not be made throws, and one that would change nothing is left out. */
  function Looked(stored: Plan, call: Call): Phase {
    if !Writable(map[stored.id := stored], Incoming(call)) then Over
    else if stored.state == PlanState.Draft || (stored.state == PlanState.Locked && call.kind.ToStart?) then Cleared
    else Saved
  }

  ghost function After(s: System, step: Step): System
    requires Enabled(s, step)
  {
    match step
    case Find(c, kind) => s.(calls := s.calls[c := Call(kind, s.stored, Found)])
    case Look(c) => Moved(s, c, Looked(s.stored, s.calls[c]))
    case Write(c) => Moved(s, c, Saved).(stored := Incoming(s.calls[c]))
    case LaunchEngine(c) => Moved(s, c, Launched)
    case Cut(c) => Moved(s, c, Over)
  }

  function Moved(s: System, c: nat, phase: Phase): System
    requires c in s.calls
  {
    s.(calls := s.calls[c := s.calls[c].(phase := phase)])
  }

  /** A start finds the plan only when no other start of it is under way; locks may always overlap. */
  ghost predicate Alone(s: System, step: Step) {
    step.Find? && step.kind.ToStart? ==> NoStartUnderWay(s)
  }

  ghost predicate NoStartUnderWay(s: System) {
    forall c :: c in s.calls && s.calls[c].kind.ToStart? ==> !UnderWay(s.calls[c])
  }

  ghost predicate Moves(a: System, b: System, alone: bool) {
    exists step :: Enabled(a, step) && b == After(a, step) && (alone ==> Alone(a, step))
  }

  /** A history with any interleaving, or with one start at a time. */
  ghost predicate History(states: seq<System>, alone: bool) {
    && states != [] && states[0].stored.state == PlanState.Draft && states[0].calls == map[]
    && forall i {:trigger MovesAt(states, i, alone)} :: 0 < i < |states| ==> MovesAt(states, i, alone)
  }

  ghost predicate MovesAt(states: seq<System>, i: nat, alone: bool)
    requires 0 < i < |states|
  {
    Moves(states[i - 1], states[i], alone)
  }

  // --- what every history keeps ----------------------------------------------------------------------

  /** Every call holds the stored plan, but for the state; what is no draft was found without conflicts. */
  ghost predicate Inv(s: System) {
    && (s.stored.state != PlanState.Draft ==> WriteScopes.NoConflicts(s.stored.tasks))
    && forall c {:trigger Fits(s, c)} :: c in s.calls ==> Fits(s, c)
  }

  ghost predicate Fits(s: System, c: nat)
    requires c in s.calls
  {
    var call := s.calls[c];
    && s.stored == call.plan.(state := s.stored.state)
    && (call.kind.ToStart? ==> s.stored.state != PlanState.Draft)
    && WriteScopes.NoConflicts(s.stored.tasks)
  }

  lemma InvStep(s: System, step: Step)
    requires Inv(s) && Enabled(s, step)
    ensures Inv(After(s, step))
  {
    var t := After(s, step);
    if step.Write? {
      assert Fits(s, step.c);
    }
    forall c | c in t.calls ensures Fits(t, c) {
      if c in s.calls {
        assert Fits(s, c);
      }
    }
  }

  lemma {:induction false} InvAlways(states: seq<System>, alone: bool, k: nat)
    requires History(states, alone) && k < |states|
    ensures Inv(states[k])
  {
    if k > 0 {
      InvAlways(states, alone, k - 1);
      assert MovesAt(states, k, alone);
      var step :| Enabled(states[k - 1], step) && states[k] == After(states[k - 1], step);
      InvStep(states[k - 1], step);
    }
  }

  lemma Extend(states: seq<System>, alone: bool, step: Step) returns (longer: seq<System>)
    requires History(states, alone) && var s := states[|states| - 1]; Enabled(s, step) && (alone ==> Alone(s, step))
    ensures History(longer, alone) && states <= longer && |longer| == |states| + 1
    ensures longer[|states|] == After(states[|states| - 1], step)
  {
    var last := states[|states| - 1];
    longer := states + [After(last, step)];
    assert Moves(last, After(last, step), alone);
    forall i | 0 < i < |longer| ensures MovesAt(longer, i, alone) {
      if i < |states| {
        assert MovesAt(states, i, alone);
      }
    }
  }

  /** A save that returns has its plan stored at that moment, by its own write or by another's. */
  lemma SavedIsStored(states: seq<System>, alone: bool, k: nat, c: nat)
    requires History(states, alone) && 0 < k < |states| && c in states[k].calls && states[k].calls[c].phase.Saved?
    requires c in states[k - 1].calls ==> !states[k - 1].calls[c].phase.Saved?
    ensures states[k].stored == Incoming(states[k].calls[c])
  {
    InvAlways(states, alone, k - 1);
    assert MovesAt(states, k, alone);
    var step :| Enabled(states[k - 1], step) && states[k] == After(states[k - 1], step);
    assert c in states[k - 1].calls && Fits(states[k - 1], c);
  }

  /** Of two starts that may not overlap, at least one is launched or over. */
  lemma {:induction false} OneStartAtATime(states: seq<System>, k: nat, c: nat, d: nat)
    requires History(states, true) && k < |states| && c != d && c in states[k].calls && d in states[k].calls
    requires states[k].calls[c].kind.ToStart? && states[k].calls[d].kind.ToStart?
    ensures var one, other := states[k].calls[c].phase, states[k].calls[d].phase;
      one.Launched? || one.Over? || other.Launched? || other.Over?
  {
    if k > 0 {
      assert MovesAt(states, k, true);
      if c in states[k - 1].calls && d in states[k - 1].calls {
        OneStartAtATime(states, k - 1, c, d);
      }
    }
  }

  // --- when a spent plan comes back -------------------------------------------------------------------

  /** This lock looked while the plan was a draft, and has not written yet. */
  predicate IsLate(s: System, c: nat) {
    c in s.calls && s.calls[c].kind.ToLock? && s.calls[c].phase.Cleared?
  }

  ghost predicate LateLock(s: System) {
    exists c :: IsLate(s, c)
  }

  /** From some point on, the plan is spent at one moment and locked at a later one. */
  ghost predicate ComesBack(states: seq<System>, from: nat) {
    exists i: nat, j: nat :: from <= i < j < |states|
      && states[i].stored.state == PlanState.Consumed && states[j].stored.state == PlanState.Locked
  }

  ghost predicate CanComeBack(states: seq<System>) {
    exists longer :: History(longer, false) && 0 < |states| <= |longer| && states <= longer
      && ComesBack(longer, |states| - 1)
  }

  /** No lock will write any more: the plan can only be spent. */
  ghost predicate Frozen(s: System) {
    s.stored.state != PlanState.Draft && !LateLock(s)
  }

  lemma FrozenStep(s: System, step: Step)
    requires Enabled(s, step) && Frozen(s)
    ensures Frozen(After(s, step))
    ensures s.stored.state == PlanState.Consumed ==> After(s, step).stored.state == PlanState.Consumed
  {
    var t := After(s, step);
    forall c ensures !IsLate(t, c) {
      assert !IsLate(s, c);
    }
    if step.Write? {
      assert !IsLate(s, step.c);
    }
  }

  lemma {:induction false} FrozenStays(states: seq<System>, alone: bool, i: nat, j: nat)
    requires History(states, alone) && i <= j < |states| && Frozen(states[i])
    ensures Frozen(states[j])
    ensures states[i].stored.state == PlanState.Consumed ==> states[j].stored.state == PlanState.Consumed
    decreases j
  {
    if i < j {
      FrozenStays(states, alone, i, j - 1);
      assert MovesAt(states, j, alone);
      var step :| Enabled(states[j - 1], step) && states[j] == After(states[j - 1], step);
      FrozenStep(states[j - 1], step);
    }
  }

  /** A draft with conflicts is never found by any call. */
  lemma {:induction false} ConflictsStay(states: seq<System>, i: nat, j: nat)
    requires History(states, false) && i <= j < |states|
    requires states[i].stored.state == PlanState.Draft && !WriteScopes.NoConflicts(states[i].stored.tasks)
    ensures states[j] == states[i]
    decreases j
  {
    if i < j {
      ConflictsStay(states, i, j - 1);
      InvAlways(states, false, j - 1);
      assert MovesAt(states, j, false);
      var step :| Enabled(states[j - 1], step) && states[j] == After(states[j - 1], step);
      if step.c in states[j - 1].calls {
        CalledMeansNone(states[j - 1], step.c);
      }
    }
  }

  lemma CalledMeansNone(s: System, c: nat)
    requires Inv(s) && c in s.calls
    ensures WriteScopes.NoConflicts(s.stored.tasks)
  {
    assert Fits(s, c);
  }

  /** Three numbers that no call has yet. */
  ghost predicate Unused(s: System, l: nat, m: nat, c: nat) {
    l != m && l != c && m != c && l !in s.calls && m !in s.calls && c !in s.calls
  }

  /**
   A plan that is not a draft can come back from Consumed to Locked exactly as long as some lock that saw
   the draft has still to write. A draft can come to that exactly if it has no conflicts.
   */
  lemma ComesBackIff(states: seq<System>, l: nat, m: nat, c: nat)
    requires History(states, false) && Unused(states[|states| - 1], l, m, c)
    ensures var s := states[|states| - 1];
      CanComeBack(states) <==>
        LateLock(s) || (s.stored.state == PlanState.Draft && WriteScopes.NoConflicts(s.stored.tasks))
  {
    var s := states[|states| - 1];
    if CanComeBack(states) {
      var longer: seq<System> :| History(longer, false) && states <= longer && ComesBack(longer, |states| - 1);
      var i: nat, j: nat :| |states| - 1 <= i < j < |longer|
        && longer[i].stored.state == PlanState.Consumed && longer[j].stored.state == PlanState.Locked;
      if Frozen(s) {
        FrozenStays(longer, false, |states| - 1, i);
        FrozenStays(longer, false, i, j);
      } else if s.stored.state == PlanState.Draft && !WriteScopes.NoConflicts(s.stored.tasks) {
        ConflictsStay(longer, |states| - 1, i);
      }
    }
    if late: nat :| IsLate(s, late) {
      BringBack(states, late, m, c);
    } else if s.stored.state == PlanState.Draft && WriteScopes.NoConflicts(s.stored.tasks) {
      var longer := Extend(states, false, Find(l, ToLock));
      longer := Extend(longer, false, Look(l));
      assert IsLate(longer[|longer| - 1], l);
      BringBack(longer, l, m, c);
      BackFromThere(states, longer);
    }
  }

  lemma BackFromThere(states: seq<System>, longer: seq<System>)
    requires states != [] && states <= longer && CanComeBack(longer)
    ensures CanComeBack(states)
  {
    var more: seq<System> :| History(more, false) && longer <= more && ComesBack(more, |longer| - 1);
    var i: nat, j: nat :| |longer| - 1 <= i < j < |more|
      && more[i].stored.state == PlanState.Consumed && more[j].stored.state == PlanState.Locked;
    assert states <= more && ComesBack(more, |states| - 1);
  }

  /** Another lock writes, a start spends the plan, and then the late lock writes. */
  lemma BringBack(states: seq<System>, late: nat, m: nat, c: nat)
    requires History(states, false) && IsLate(states[|states| - 1], late)
    requires m != c && m !in states[|states| - 1].calls && c !in states[|states| - 1].calls
    ensures CanComeBack(states)
  {
    InvAlways(states, false, |states| - 1);
    assert Fits(states[|states| - 1], late);
    var longer := states;
    if longer[|longer| - 1].stored.state == PlanState.Draft {
      longer := LockNow(longer, m);
    }
    if longer[|longer| - 1].stored.state == PlanState.Locked {
      longer := SpendNow(longer, false, c);
    }
    var i := |longer| - 1;
    longer := Extend(longer, false, Write(late));
    assert longer[i].stored.state == PlanState.Consumed && longer[i + 1].stored.state == PlanState.Locked;
    assert ComesBack(longer, |states| - 1);
  }

  lemma LockNow(states: seq<System>, m: nat) returns (longer: seq<System>)
    requires History(states, false) && var s := states[|states| - 1];
      s.stored.state == PlanState.Draft && WriteScopes.NoConflicts(s.stored.tasks) && m !in s.calls
    ensures History(longer, false) && states <= longer
    ensures var s, t := states[|states| - 1], longer[|longer| - 1];
      t.stored == s.stored.(state := PlanState.Locked) && m in t.calls && t.calls == s.calls[m := t.calls[m]]
  {
    longer := Extend(states, false, Find(m, ToLock));
    longer := Extend(longer, false, Look(m));
    longer := Extend(longer, false, Write(m));
  }

  lemma SpendNow(states: seq<System>, alone: bool, c: nat) returns (longer: seq<System>)
    requires History(states, alone) && var s := states[|states| - 1];
      s.stored.state == PlanState.Locked && c !in s.calls && (alone ==> NoStartUnderWay(s))
    ensures History(longer, alone) && states <= longer
    ensures var s, t := states[|states| - 1], longer[|longer| - 1];
      && t.stored == s.stored.(state := PlanState.Consumed)
      && t.calls == s.calls[c := Call(ToStart, s.stored, Saved)]
  {
    longer := Extend(states, alone, Find(c, ToStart));
    longer := Extend(longer, alone, Look(c));
    longer := Extend(longer, alone, Write(c));
  }

  // --- and is started again ------------------------------------------------------------------------------

  /** An engine runs the plan. */
  predicate HasEngine(s: System, c: nat) {
    c in s.calls && s.calls[c].kind.ToStart? && s.calls[c].phase.Launched?
  }

  ghost predicate CanHaveAnother(states: seq<System>, c: nat) {
    exists longer :: History(longer, true) && states != [] && states <= longer && HasEngine(longer[|longer| - 1], c)
  }

  /**
   With one start at a time and none under way, a plan that has its engine can come to another one exactly
   if it is locked, or a lock that saw the draft has still to write.
   */
  lemma AnotherEngineIff(states: seq<System>, first: nat, c: nat)
    requires History(states, true) && c !in states[|states| - 1].calls
    requires NoStartUnderWay(states[|states| - 1]) && HasEngine(states[|states| - 1], first)
    ensures var s := states[|states| - 1];
      CanHaveAnother(states, c) <==> s.stored.state == PlanState.Locked || LateLock(s)
  {
    var s := states[|states| - 1];
    InvAlways(states, true, |states| - 1);
    assert Fits(s, first);
    if CanHaveAnother(states, c) && Frozen(s) && s.stored.state == PlanState.Consumed {
      var longer :| History(longer, true) && states <= longer && HasEngine(longer[|longer| - 1], c);
      NoStartFinds(longer, |states| - 1, |longer| - 1, c);
    }
    if s.stored.state == PlanState.Locked {
      StartAgain(states, states, c);
    } else if late: nat :| IsLate(s, late) {
      assert Fits(s, late);
      var longer := Extend(states, true, Write(late));
      StartAgain(states, longer, c);
    }
  }

  lemma StartAgain(states: seq<System>, longer: seq<System>, c: nat)
    requires states != [] && states <= longer && History(longer, true) && var s := longer[|longer| - 1];
      s.stored.state == PlanState.Locked && c !in s.calls && NoStartUnderWay(s)
    ensures CanHaveAnother(states, c)
  {
    var more := SpendNow(longer, true, c);
    more := Extend(more, true, LaunchEngine(c));
    assert HasEngine(more[|more| - 1], c);
  }

  lemma {:induction false} NoStartFinds(states: seq<System>, i: nat, j: nat, c: nat)
    requires History(states, true) && i <= j < |states|
    requires Frozen(states[i]) && states[i].stored.state == PlanState.Consumed && c !in states[i].calls
    ensures c in states[j].calls ==> states[j].calls[c].kind.ToLock?
    decreases j
  {
    if i < j {
      NoStartFinds(states, i, j - 1, c);
      FrozenStays(states, true, i, j - 1);
      assert MovesAt(states, j, true);
    }
  }

  /** Two overlapping locks are enough for two engines on one plan, although one start ends before the next begins. */
  lemma LockedTwiceRunsTwice(drawn: Plan) returns (states: seq<System>)
    requires drawn.state == PlanState.Draft && WriteScopes.NoConflicts(drawn.tasks)
    ensures History(states, true) && states[0].stored == drawn
    ensures HasEngine(states[|states| - 1], 2) && HasEngine(states[|states| - 1], 3)
  {
    states := Extend([System(drawn, map[])], true, Find(0, ToLock));
    states := Extend(states, true, Find(1, ToLock));
    states := Extend(states, true, Look(0));
    states := Extend(states, true, Look(1));
    states := Extend(states, true, Write(0));
    states := SpendNow(states, true, 2);
    states := Extend(states, true, LaunchEngine(2));
    states := Extend(states, true, Write(1));
    states := SpendNow(states, true, 3);
    states := Extend(states, true, LaunchEngine(3));
  }
}
