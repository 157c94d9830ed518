/** The table of pending calls to an agent, under any interleaving (AcpConnection.cs). */
module AcpCalls {
  import opened Wrappers

  /** A response as the reader takes it off the pipe; an error object may have an unreadable code. */
  datatype Message =
    | Result(id: int, body: string)
    | Error(id: int, code: int, text: string)
    | Unreadable(id: int)

  /** How a call came to its end. */
  datatype Outcome =
    | Answered(message: Message)
    | Closed
    | Canceled

  /** Where a caller stands: its number, its entry in the table, the write, the await, the way out. */
  datatype Caller =
    | Starting
    | Numbered(id: int)
    | Registered(id: int)
    | Waiting(id: int)
    | Leaving(id: int)
    | Gone(id: int)

  /**
   One that settles calls: the reader, and whoever closes the connection. It may hold a call it took
   from the table. A sweep remembers the keys it has still to try, and who was registered as it began.
   */
  datatype Settler =
    | Idle
    | Holding(call: nat, message: Message)
    | Stopping(threw: bool)
    | Sweeping(todo: set<int>, known: set<nat>, threw: bool)
    | Sweeps(call: nat, todo: set<int>, known: set<nat>, threw: bool)
    | Ended(known: set<nat>, threw: bool)

  datatype System = System(
    next: int, callers: map<nat, Caller>, table: map<int, nat>, settled: map<nat, Outcome>,
    reader: Settler, closer: Settler, lost: set<nat>)

  datatype Step =
    | Call(c: nat)
    | Number(c: nat)
    | Register(c: nat)
    | Sent(c: nat)
    | WriteFails(c: nat)
    | Cancel(c: nat)
    | Wake(c: nat)
    | Leave(c: nat)
    | Receive(message: Message)
    | Settle
    | HandlerThrows
    | Stop
    | BeginSweep
    | Take(key: int)
    | Fail
    | EndSweep
    | BeginClose
    | CloseTake(key: int)
    | CloseFail
    | EndClose

  predicate HasId(caller: Caller) {
    !caller.Starting?
  }

  /** The entry has been made; the caller may be on its way out. */
  predicate Entered(caller: Caller) {
    caller.Registered? || caller.Waiting? || caller.Leaving? || caller.Gone?
  }

  /** Still to be given an outcome, if it has none. */
  predicate Expecting(caller: Caller) {
    caller.Registered? || caller.Waiting?
  }

  /** The steps of callers and their timers; the others are those of the two settlers. */
  predicate ByCaller(step: Step) {
    || step.Call? || step.Number? || step.Register? || step.Sent?
    || step.WriteFails? || step.Cancel? || step.Wake? || step.Leave?
  }

  predicate Enabled(s: System, step: Step) {
    match step
    case Call(c) => c !in s.callers
    case Number(c) => c in s.callers && s.callers[c].Starting?
    case Register(c) => c in s.callers && s.callers[c].Numbered?
    case Sent(c) => c in s.callers && s.callers[c].Registered?
    case WriteFails(c) => c in s.callers && s.callers[c].Registered?
    case Cancel(c) => c in s.callers && s.callers[c].Waiting?
    case Wake(c) => c in s.callers && s.callers[c].Waiting? && c in s.settled
    case Leave(c) => c in s.callers && s.callers[c].Leaving?
    case Receive(message) => s.reader.Idle?
    case Settle => s.reader.Holding?
    case HandlerThrows => s.reader.Idle?
    case Stop => s.reader.Idle?
    case BeginSweep => s.reader.Stopping?
    case Take(key) => s.reader.Sweeping? && key in s.reader.todo
    case Fail => s.reader.Sweeps?
    case EndSweep => s.reader.Sweeping? && s.reader.todo == {}
    case BeginClose => s.closer.Idle? && s.reader.Ended? && !s.reader.threw
    case CloseTake(key) => s.closer.Sweeping? && key in s.closer.todo
    case CloseFail => s.closer.Sweeps?
    case EndClose => s.closer.Sweeping? && s.closer.todo == {}
  }

  /** TrySet: the first outcome stands. */
  function SettledAs(settled: map<nat, Outcome>, c: nat, outcome: Outcome): map<nat, Outcome> {
    if c in settled then settled else settled[c := outcome]
  }

  function Moved(s: System, c: nat, caller: Caller): System {
    s.(callers := s.callers[c := caller])
  }

  function EnteredCallers(callers: map<nat, Caller>): set<nat> {
    set c | c in callers && Entered(callers[c])
  }

  function Begun(s: System, threw: bool): Settler {
    Sweeping(s.table.Keys, EnteredCallers(s.callers), threw)
  }

  function Taken(s: System, settler: Settler, key: int): Settler
    requires settler.Sweeping?
  {
    if key in s.table then Sweeps(s.table[key], settler.todo - {key}, settler.known, settler.threw)
    else Sweeping(settler.todo - {key}, settler.known, settler.threw)
  }

  function Swept(settler: Settler): nat
    requires settler.Sweeps?
  {
    settler.call
  }

  function Back(settler: Settler): Settler
    requires settler.Sweeps?
  {
    Sweeping(settler.todo, settler.known, settler.threw)
  }

  function Over(settler: Settler): Settler
    requires settler.Sweeping?
  {
    Ended(settler.known, settler.threw)
  }

  function After(s: System, step: Step): System
    requires Enabled(s, step)
  {
    match step
    case Call(c) => Moved(s, c, Starting)
    case Number(c) => Moved(s, c, Numbered(s.next + 1)).(next := s.next + 1)
    case Register(c) => Moved(s, c, Registered(s.callers[c].id)).(table := s.table[s.callers[c].id := c])
    case Sent(c) => Moved(s, c, Waiting(s.callers[c].id))
    case WriteFails(c) => Moved(s, c, Leaving(s.callers[c].id))
    case Cancel(c) => s.(settled := SettledAs(s.settled, c, Canceled))
    case Wake(c) => Moved(s, c, Leaving(s.callers[c].id))
    case Leave(c) => Moved(s, c, Gone(s.callers[c].id)).(table := s.table - {s.callers[c].id})
    case Receive(message) =>
      if message.id in s.table then
        s.(reader := Holding(s.table[message.id], message), table := s.table - {message.id})
      else s
    case Settle =>
      // Reading the code of an error throws after the call has left the table.
      if s.reader.message.Unreadable? then s.(reader := Stopping(true), lost := s.lost + {s.reader.call})
      else s.(reader := Idle, settled := SettledAs(s.settled, s.reader.call, Answered(s.reader.message)))
    case HandlerThrows => s.(reader := Stopping(true))
    case Stop => s.(reader := Stopping(false))
    case BeginSweep => s.(reader := Begun(s, s.reader.threw))
    case Take(key) => s.(reader := Taken(s, s.reader, key), table := s.table - {key})
    case Fail => s.(reader := Back(s.reader), settled := SettledAs(s.settled, Swept(s.reader), Closed))
    case EndSweep => s.(reader := Over(s.reader))
    case BeginClose => s.(closer := Begun(s, false))
    case CloseTake(key) => s.(closer := Taken(s, s.closer, key), table := s.table - {key})
    case CloseFail => s.(closer := Back(s.closer), settled := SettledAs(s.settled, Swept(s.closer), Closed))
    case EndClose => s.(closer := Over(s.closer))
  }

  ghost predicate Moves(a: System, b: System) {
    exists step :: Enabled(a, step) && b == After(a, step)
  }

  const Opened := System(0, map[], map[], map[], Idle, Idle, {})

  ghost predicate Behaviour(states: seq<System>) {
    && states != [] && states[0] == Opened
    && forall i {:trigger MovesAt(states, i)} :: 0 < i < |states| ==> MovesAt(states, i)
  }

  ghost predicate MovesAt(states: seq<System>, i: nat)
    requires 0 < i < |states|
  {
    Moves(states[i - 1], states[i])
  }

  // --- what every interleaving keeps --------------------------------------------------------------

  predicate Holds(settler: Settler, c: nat) {
    (settler.Holding? || settler.Sweeps?) && settler.call == c
  }

  predicate InTable(s: System, c: nat) {
    c in s.callers && HasId(s.callers[c]) && s.callers[c].id in s.table && s.table[s.callers[c].id] == c
  }

  /** Numbers are given once. */
  ghost predicate OwnIds(s: System) {
    && (forall c :: c in s.callers && HasId(s.callers[c]) ==> s.callers[c].id <= s.next)
    && (forall c, d :: (c in s.callers && d in s.callers && HasId(s.callers[c]) && HasId(s.callers[d]) &&
                        s.callers[c].id == s.callers[d].id) ==> c == d)
  }

  /** Whoever is in the table or held entered it, under its own number. */
  ghost predicate Placed(s: System) {
    && (forall id {:trigger EntryFits(s, id)} :: id in s.table ==> EntryFits(s, id))
    && ReaderFits(s) && CloserFits(s)
  }

  ghost predicate EntryFits(s: System, id: int)
    requires id in s.table
  {
    var c := s.table[id];
    c in s.callers && Entered(s.callers[c]) && s.callers[c].id == id && !s.callers[c].Gone?
  }

  ghost predicate ReaderFits(s: System) {
    && (s.reader.Holding? || s.reader.Sweeps? ==> Out(s, s.reader.call))
    && (s.reader.Holding? ==> s.callers[s.reader.call].id == s.reader.message.id)
  }

  ghost predicate CloserFits(s: System) {
    && !s.closer.Holding? && !s.closer.Stopping?
    && (s.closer.Sweeps? ==> Out(s, s.closer.call))
    && (!s.closer.Idle? ==> s.reader.Ended? && !s.reader.threw)
  }

  ghost predicate Out(s: System, c: nat) {
    c in s.callers && Entered(s.callers[c]) && !InTable(s, c)
  }

  /** A call that expects an outcome and has none is in the table, or held by one settler, or lost. */
  ghost predicate Tracked(s: System, c: nat) {
    c in s.callers && Expecting(s.callers[c]) && c !in s.settled ==>
      InTable(s, c) || Holds(s.reader, c) || Holds(s.closer, c) || c in s.lost
  }

  /** A lost call is in nobody's hands. */
  ghost predicate Adrift(s: System, c: nat) {
    c in s.lost ==> Out(s, c) && !Holds(s.reader, c) && !Holds(s.closer, c)
  }

  predicate HasBegun(settler: Settler) {
    settler.Sweeping? || settler.Sweeps? || settler.Ended?
  }

  /** The settler whose sweep is the last so far has begun it, and did not know of the call then. */
  ghost predicate IsLate(s: System, c: nat) {
    if HasBegun(s.closer) then c !in s.closer.known
    else HasBegun(s.reader) && c !in s.reader.known
  }

  /** Nobody will try the number of a late call, and nothing but its timer has settled it. */
  ghost predicate LeftAlone(s: System, c: nat) {
    IsLate(s, c) ==>
      && !Holds(s.reader, c) && !Holds(s.closer, c) && c !in s.lost
      && (c in s.callers && HasId(s.callers[c]) ==>
          !Tries(s.reader, s.callers[c].id) && !Tries(s.closer, s.callers[c].id))
      && (c in s.settled ==> s.settled[c] == Canceled)
  }

  predicate Tries(settler: Settler, id: int) {
    (settler.Sweeping? || settler.Sweeps?) && id in settler.todo
  }

  /** Only numbers already given are tried. */
  ghost predicate TriesGiven(s: System) {
    forall id :: Tries(s.reader, id) || Tries(s.closer, id) ==> id <= s.next
  }

  /** Only a response under the call's own number answers it. */
  ghost predicate Fits(s: System, c: nat) {
    c in s.settled ==>
      && c in s.callers && Entered(s.callers[c])
      && (s.settled[c].Answered? ==> s.settled[c].message.id == s.callers[c].id)
  }

  /** A sweep has still to try every key under which a call it knew of is pending. */
  ghost predicate Covers(s: System, settler: Settler, c: nat) {
    HasBegun(settler) && c in settler.known && InTable(s, c) ==>
      !settler.Ended? && s.callers[c].id in settler.todo
  }

  ghost predicate Knows(s: System, settler: Settler) {
    HasBegun(settler) ==>
      forall c :: c in settler.known ==> c in s.callers && Entered(s.callers[c])
  }

  ghost predicate LossThrows(s: System) {
    s.lost != {} ==> Threw(s.reader)
  }

  /** The reading loop ended with an exception. */
  predicate Threw(settler: Settler) {
    match settler
    case Stopping(threw) => threw
    case Sweeping(_, _, threw) => threw
    case Sweeps(_, _, _, threw) => threw
    case Ended(_, threw) => threw
    case _ => false
  }

  ghost predicate Inv(s: System) {
    && OwnIds(s) && Placed(s) && LossThrows(s)
    && Knows(s, s.reader) && Knows(s, s.closer)
    && TriesGiven(s)
    && (forall c {:trigger Tracked(s, c)} :: Tracked(s, c))
    && (forall c {:trigger Adrift(s, c)} :: Adrift(s, c))
    && (forall c {:trigger LeftAlone(s, c)} :: LeftAlone(s, c))
    && (forall c {:trigger Fits(s, c)} :: Fits(s, c))
    && (forall c {:trigger Covers(s, s.reader, c)} :: Covers(s, s.reader, c))
    && (forall c {:trigger Covers(s, s.closer, c)} :: Covers(s, s.closer, c))
  }

  lemma IdsStep(s: System, step: Step)
    requires OwnIds(s) && Enabled(s, step)
    ensures OwnIds(After(s, step))
  {
    if ByCaller(step) {
      IdsStepByCaller(s, step);
    } else {
      IdsStepBySettler(s, step);
    }
  }

  lemma IdsStepByCaller(s: System, step: Step)
    requires OwnIds(s) && Enabled(s, step) && ByCaller(step)
    ensures OwnIds(After(s, step))
  {
  }

  lemma IdsStepBySettler(s: System, step: Step)
    requires OwnIds(s) && Enabled(s, step) && !ByCaller(step)
    ensures OwnIds(After(s, step))
  {
  }

  lemma EntryStep(s: System, step: Step, id: int)
    requires OwnIds(s) && Placed(s) && Enabled(s, step) && id in After(s, step).table
    ensures EntryFits(After(s, step), id)
  {
    if ByCaller(step) {
      EntryStepByCaller(s, step, id);
    } else {
      assert id in s.table && EntryFits(s, id);
    }
  }

  lemma EntryStepByCaller(s: System, step: Step, id: int)
    requires OwnIds(s) && Placed(s) && Enabled(s, step) && id in After(s, step).table && ByCaller(step)
    ensures EntryFits(After(s, step), id)
  {
    if id in s.table {
      assert EntryFits(s, id);
    }
  }

  lemma ReaderStep(s: System, step: Step)
    requires OwnIds(s) && Placed(s) && Enabled(s, step)
    ensures ReaderFits(After(s, step))
  {
    match step
    case Receive(message) =>
      if message.id in s.table {
        assert EntryFits(s, message.id);
      }
    case Take(key) =>
      if key in s.table {
        assert EntryFits(s, key);
      }
    case _ =>
  }

  lemma CloserStep(s: System, step: Step)
    requires OwnIds(s) && Placed(s) && Enabled(s, step)
    ensures CloserFits(After(s, step))
  {
    match step
    case CloseTake(key) =>
      if key in s.table {
        assert EntryFits(s, key);
      }
    case _ =>
  }

  lemma PlacedStep(s: System, step: Step)
    requires OwnIds(s) && Placed(s) && Enabled(s, step)
    ensures Placed(After(s, step))
  {
    var t := After(s, step);
    forall id | id in t.table ensures EntryFits(t, id) { EntryStep(s, step, id); }
    ReaderStep(s, step);
    CloserStep(s, step);
  }

  lemma TrackedStep(s: System, step: Step, c: nat)
    requires OwnIds(s) && Placed(s) && Enabled(s, step) && Tracked(s, c)
    ensures Tracked(After(s, step), c)
  {
    if ByCaller(step) {
      TrackedStepByCaller(s, step, c);
    } else {
      TrackedStepBySettler(s, step, c);
    }
  }

  lemma TrackedStepByCaller(s: System, step: Step, c: nat)
    requires OwnIds(s) && Placed(s) && Enabled(s, step) && Tracked(s, c) && ByCaller(step)
    ensures Tracked(After(s, step), c)
  {
  }

  lemma TrackedStepBySettler(s: System, step: Step, c: nat)
    requires OwnIds(s) && Placed(s) && Enabled(s, step) && Tracked(s, c) && !ByCaller(step)
    ensures Tracked(After(s, step), c)
  {
  }

  lemma FitsStep(s: System, step: Step, c: nat)
    requires OwnIds(s) && Placed(s) && Enabled(s, step) && Fits(s, c)
    ensures Fits(After(s, step), c)
  {
    if ByCaller(step) {
      FitsStepByCaller(s, step, c);
    } else {
      FitsStepBySettler(s, step, c);
    }
  }

  lemma FitsStepByCaller(s: System, step: Step, c: nat)
    requires OwnIds(s) && Placed(s) && Enabled(s, step) && Fits(s, c) && ByCaller(step)
    ensures Fits(After(s, step), c)
  {
  }

  lemma FitsStepBySettler(s: System, step: Step, c: nat)
    requires OwnIds(s) && Placed(s) && Enabled(s, step) && Fits(s, c) && !ByCaller(step)
    ensures Fits(After(s, step), c)
  {
  }

  lemma ReaderCovers(s: System, step: Step, c: nat)
    requires OwnIds(s) && Placed(s) && Knows(s, s.reader) && Enabled(s, step) && Covers(s, s.reader, c)
    ensures Covers(After(s, step), After(s, step).reader, c)
  {
    if ByCaller(step) {
      ReaderCoversByCaller(s, step, c);
    } else {
      ReaderCoversBySettler(s, step, c);
    }
  }

  lemma ReaderCoversByCaller(s: System, step: Step, c: nat)
    requires OwnIds(s) && Placed(s) && Knows(s, s.reader) && Covers(s, s.reader, c)
    requires Enabled(s, step) && ByCaller(step)
    ensures Covers(After(s, step), After(s, step).reader, c)
  {
  }

  lemma ReaderCoversBySettler(s: System, step: Step, c: nat)
    requires OwnIds(s) && Placed(s) && Knows(s, s.reader) && Covers(s, s.reader, c)
    requires Enabled(s, step) && !ByCaller(step)
    ensures Covers(After(s, step), After(s, step).reader, c)
  {
  }

  lemma CloserCovers(s: System, step: Step, c: nat)
    requires OwnIds(s) && Placed(s) && Knows(s, s.closer) && Enabled(s, step) && Covers(s, s.closer, c)
    ensures Covers(After(s, step), After(s, step).closer, c)
  {
    if ByCaller(step) {
      CloserCoversByCaller(s, step, c);
    } else {
      CloserCoversBySettler(s, step, c);
    }
  }

  lemma CloserCoversByCaller(s: System, step: Step, c: nat)
    requires OwnIds(s) && Placed(s) && Knows(s, s.closer) && Covers(s, s.closer, c)
    requires Enabled(s, step) && ByCaller(step)
    ensures Covers(After(s, step), After(s, step).closer, c)
  {
  }

  lemma CloserCoversBySettler(s: System, step: Step, c: nat)
    requires OwnIds(s) && Placed(s) && Knows(s, s.closer) && Covers(s, s.closer, c)
    requires Enabled(s, step) && !ByCaller(step)
    ensures Covers(After(s, step), After(s, step).closer, c)
  {
  }

  lemma ReaderKnows(s: System, step: Step)
    requires Knows(s, s.reader) && Enabled(s, step)
    ensures Knows(After(s, step), After(s, step).reader)
  {
  }

  lemma CloserKnows(s: System, step: Step)
    requires Knows(s, s.closer) && Enabled(s, step)
    ensures Knows(After(s, step), After(s, step).closer)
  {
  }

  lemma LossStep(s: System, step: Step)
    requires LossThrows(s) && Enabled(s, step)
    ensures LossThrows(After(s, step))
  {
  }

  lemma AdriftStep(s: System, step: Step, c: nat)
    requires OwnIds(s) && Placed(s) && Enabled(s, step) && Adrift(s, c)
    ensures Adrift(After(s, step), c)
  {
    if ByCaller(step) {
      AdriftStepByCaller(s, step, c);
    } else {
      AdriftStepBySettler(s, step, c);
    }
  }

  lemma AdriftStepByCaller(s: System, step: Step, c: nat)
    requires OwnIds(s) && Placed(s) && Enabled(s, step) && Adrift(s, c) && ByCaller(step)
    ensures Adrift(After(s, step), c)
  {
  }

  lemma AdriftStepBySettler(s: System, step: Step, c: nat)
    requires OwnIds(s) && Placed(s) && Enabled(s, step) && Adrift(s, c) && !ByCaller(step)
    ensures Adrift(After(s, step), c)
  {
    match step
    case Receive(message) =>
      if message.id in s.table {
        assert EntryFits(s, message.id);
      }
    case Take(key) =>
      if key in s.table {
        assert EntryFits(s, key);
      }
    case CloseTake(key) =>
      if key in s.table {
        assert EntryFits(s, key);
      }
    case _ =>
  }

  lemma TriesStep(s: System, step: Step)
    requires OwnIds(s) && Placed(s) && Enabled(s, step) && TriesGiven(s)
    ensures TriesGiven(After(s, step))
  {
    var t := After(s, step);
    forall id | Tries(t.reader, id) || Tries(t.closer, id) ensures id <= t.next {
      if !Tries(s.reader, id) && !Tries(s.closer, id) {
        assert id in s.table && EntryFits(s, id);
      }
    }
  }

  lemma LeftAloneStep(s: System, step: Step, c: nat)
    requires Inv(s) && Enabled(s, step)
    ensures LeftAlone(After(s, step), c)
  {
    assert LeftAlone(s, c);
    if ByCaller(step) {
      LeftAloneByCaller(s, step, c);
    } else if step.BeginSweep? || step.BeginClose? {
      LateAtTheSweep(s, step, c);
    } else {
      LeftAloneBySettler(s, step, c);
    }
  }

  lemma LeftAloneByCaller(s: System, step: Step, c: nat)
    requires Inv(s) && Enabled(s, step) && ByCaller(step) && LeftAlone(s, c)
    ensures LeftAlone(After(s, step), c)
  {
  }

  lemma LateAtTheSweep(s: System, step: Step, c: nat)
    requires Inv(s) && Enabled(s, step) && (step.BeginSweep? || step.BeginClose?)
    ensures LeftAlone(After(s, step), c)
  {
    assert Fits(s, c) && Adrift(s, c);
    if c in s.callers && HasId(s.callers[c]) && s.callers[c].id in s.table {
      assert EntryFits(s, s.callers[c].id);
    }
  }

  lemma LeftAloneBySettler(s: System, step: Step, c: nat)
    requires Inv(s) && Enabled(s, step) && !ByCaller(step) && !step.BeginSweep? && !step.BeginClose? && LeftAlone(s, c)
    ensures LeftAlone(After(s, step), c)
  {
    match step
    case Take(key) =>
      if key in s.table {
        assert EntryFits(s, key);
      }
    case CloseTake(key) =>
      if key in s.table {
        assert EntryFits(s, key);
      }
    case _ =>
  }

  lemma InvStep(s: System, step: Step)
    requires Inv(s) && Enabled(s, step)
    ensures Inv(After(s, step))
  {
    var t := After(s, step);
    IdsStep(s, step);
    PlacedStep(s, step);
    ReaderKnows(s, step);
    CloserKnows(s, step);
    LossStep(s, step);
    TriesStep(s, step);
    forall c ensures Adrift(t, c) { assert Adrift(s, c); AdriftStep(s, step, c); }
    forall c ensures LeftAlone(t, c) { LeftAloneStep(s, step, c); }
    forall c ensures Tracked(t, c) { TrackedStep(s, step, c); }
    forall c ensures Fits(t, c) { FitsStep(s, step, c); }
    forall c ensures Covers(t, t.reader, c) { ReaderCovers(s, step, c); }
    forall c ensures Covers(t, t.closer, c) { CloserCovers(s, step, c); }
  }

  lemma {:induction false} InvAlways(states: seq<System>, k: nat)
    requires Behaviour(states) && k < |states|
    ensures Inv(states[k])
  {
    if k > 0 {
      InvAlways(states, k - 1);
      assert MovesAt(states, k);
      var step :| Enabled(states[k - 1], step) && states[k] == After(states[k - 1], step);
      InvStep(states[k - 1], step);
    }
  }

  // --- what the protocol promises -------------------------------------------------------------------

  /** A call is settled at most once: its first outcome stands for good. */
  lemma {:induction false} SettledOnce(states: seq<System>, i: nat, k: nat, c: nat)
    requires Behaviour(states) && i <= k < |states| && c in states[i].settled
    ensures c in states[k].settled && states[k].settled[c] == states[i].settled[c]
    decreases k
  {
    if i < k {
      SettledOnce(states, i, k - 1, c);
      assert MovesAt(states, k);
    }
  }

  /** And only a response under the call's own number, which no other call ever had, answers it. */
  lemma AnsweredByOwnResponse(states: seq<System>, k: nat, c: nat, d: nat)
    requires Behaviour(states) && k < |states| && c in states[k].settled && states[k].settled[c].Answered?
    requires d in states[k].callers && HasId(states[k].callers[d])
    ensures c in states[k].callers && HasId(states[k].callers[c])
    ensures states[k].callers[d].id == states[k].settled[c].message.id <==> c == d
  {
    InvAlways(states, k);
    assert Fits(states[k], c);
  }

  /** A response under a number nobody has registered, or whose call is over, changes nothing at all. */
  lemma UnknownAndLateChangeNothing(states: seq<System>, k: nat, message: Message)
    requires Behaviour(states) && k < |states| && states[k].reader.Idle?
    requires var callers := states[k].callers;
      forall c :: c in callers && HasId(callers[c]) && callers[c].id == message.id ==>
        callers[c].Numbered? || callers[c].Gone?
    ensures After(states[k], Receive(message)) == states[k]
  {
    InvAlways(states, k);
    var s := states[k];
    assert forall id {:trigger s.table[id]} {:trigger id in s.table} :: id in s.table ==> EntryFits(s, id);
  }

  /** A response to a call in the table, of whatever kind, is taken: the reader then holds the call with it. */
  lemma ResponseIsTaken(states: seq<System>, k: nat, c: nat, message: Message)
    requires Behaviour(states) && k < |states| && states[k].reader.Idle? && InTable(states[k], c)
    requires message.id == states[k].callers[c].id
    ensures var s, t := states[k], After(states[k], Receive(message));
      && t == s.(reader := t.reader, table := t.table)
      && Holds(t.reader, c) && t.reader.Holding? && t.reader.message == message
      && t.table.Keys == s.table.Keys - {message.id} && !InTable(t, c)
      && forall d :: d != c ==> (InTable(t, d) <==> InTable(s, d))
  {
    InvAlways(states, k);
  }

  /** And then it settles its own call, unless that has an outcome already, and no other. */
  lemma ResponseSettlesItsCall(states: seq<System>, k: nat, c: nat)
    requires Behaviour(states) && k < |states| && Holds(states[k].reader, c) && states[k].reader.Holding?
    requires !states[k].reader.message.Unreadable?
    ensures var s, t := states[k], After(states[k], Settle);
      && c in s.callers && Entered(s.callers[c]) && s.callers[c].id == s.reader.message.id
      && t.settled == (if c in s.settled then s.settled else s.settled[c := Answered(s.reader.message)])
      && t.reader.Idle? && t == s.(reader := t.reader, settled := t.settled)
  {
    InvAlways(states, k);
  }

  /** So a readable response to a call that waits without an outcome is its answer, two steps later. */
  lemma ResponseAnswersItsCall(states: seq<System>, k: nat, c: nat, message: Message)
    requires Behaviour(states) && k < |states| && states[k].reader.Idle? && InTable(states[k], c)
    requires message.id == states[k].callers[c].id && !message.Unreadable? && c !in states[k].settled
    ensures var s, t := states[k], After(states[k], Receive(message));
      && Enabled(t, Settle)
      && var u := After(t, Settle);
         && c in u.settled && u.settled[c] == Answered(message)
         && (forall d :: d != c ==> (d in u.settled <==> d in s.settled))
         && (forall d :: d != c && d in s.settled ==> u.settled[d] == s.settled[d])
         && u.callers == s.callers && u.lost == s.lost && u.reader.Idle? && !InTable(u, c)
  {
    ResponseIsTaken(states, k, c, message);
  }

  /**
   A timer that fires, and a sweep that has taken a call, end it; and who has an outcome, or could not write,
   gets away.
   */
  lemma EveryEndIsReached(s: System, c: nat)
    requires c in s.callers
    ensures s.callers[c].Waiting? ==> Enabled(s, Cancel(c)) && Ends(s, After(s, Cancel(c)), c, Canceled)
    ensures s.reader.Sweeps? && s.reader.call == c ==> Enabled(s, Fail) && Ends(s, After(s, Fail), c, Closed)
    ensures s.closer.Sweeps? && s.closer.call == c ==> Enabled(s, CloseFail) && Ends(s, After(s, CloseFail), c, Closed)
    ensures s.callers[c].Waiting? && c in s.settled ==>
      && Enabled(s, Wake(c)) && Enabled(After(s, Wake(c)), Leave(c))
      && var t := After(After(s, Wake(c)), Leave(c)); t.callers[c].Gone? && !InTable(t, c) && t.settled == s.settled
    ensures s.callers[c].Registered? ==>
      && Enabled(s, WriteFails(c)) && Enabled(After(s, WriteFails(c)), Leave(c))
      && var t := After(After(s, WriteFails(c)), Leave(c));
         t.callers[c].Gone? && !InTable(t, c) && t.settled == s.settled
  {
  }

  /** Nobody stops waiting without an outcome. */
  lemma {:induction false} WaitsForItsOutcome(states: seq<System>, j: nat, k: nat, c: nat)
    requires Behaviour(states) && j <= k < |states|
    requires c in states[j].callers && states[j].callers[c].Waiting?
    ensures c in states[k].callers && (states[k].callers[c].Waiting? || c in states[k].settled)
    decreases k
  {
    if j < k {
      WaitsForItsOutcome(states, j, k - 1, c);
      assert MovesAt(states, k);
      var step :| Enabled(states[k - 1], step) && states[k] == After(states[k - 1], step);
      WaitStep(states[k - 1], step, c);
    }
  }

  lemma WaitStep(s: System, step: Step, c: nat)
    requires Enabled(s, step) && c in s.callers && (s.callers[c].Waiting? || c in s.settled)
    ensures var t := After(s, step); c in t.callers && (t.callers[c].Waiting? || c in t.settled)
  {
  }

  /** The call has an outcome: this one, if it had none. Nobody else's has changed. */
  ghost predicate Ends(s: System, t: System, c: nat, outcome: Outcome) {
    && c in t.settled && t.settled[c] == (if c in s.settled then s.settled[c] else outcome)
    && t.settled.Keys == s.settled.Keys + {c} && t.callers == s.callers
    && forall d :: d != c && d in s.settled ==> t.settled[d] == s.settled[d]
  }

  /**
   Where a call that expects an outcome and has none is to be found: in the table or held by one
   settler, and never in two of these places, exactly unless its response was unreadable.
   */
  lemma FoundInOnePlace(states: seq<System>, k: nat, c: nat)
    requires Behaviour(states) && k < |states|
    requires var s := states[k]; c in s.callers && Expecting(s.callers[c]) && c !in s.settled
    ensures var s := states[k];
      && (InTable(s, c) || Holds(s.reader, c) || Holds(s.closer, c) <==> c !in s.lost)
      && !(InTable(s, c) && Holds(s.reader, c)) && !(InTable(s, c) && Holds(s.closer, c))
      && !(Holds(s.reader, c) && Holds(s.closer, c))
  {
    InvAlways(states, k);
    assert Tracked(states[k], c) && Adrift(states[k], c);
  }

  /**
   Once closing is over, whoever expects an outcome and has none is in the table, and entered it after
   the last sweep had begun.
   */
  lemma SweptAfterClosing(states: seq<System>, k: nat, c: nat)
    requires Behaviour(states) && k < |states| && states[k].closer.Ended?
    requires c in states[k].callers && Expecting(states[k].callers[c])
    ensures var s := states[k];
      && (c !in s.settled ==> InTable(s, c))
      && (c in s.closer.known ==> c in s.settled)
  {
    InvAlways(states, k);
    var s := states[k];
    assert Tracked(s, c) && Covers(s, s.closer, c);
    assert s.lost == {};
  }

  /**
   From the beginning of the last sweep on, a call it did not know of is settled by its timer or not at
   all, and stays in the table until then.
   */
  lemma LateCallsOnlyTimeOut(states: seq<System>, k: nat, c: nat)
    requires Behaviour(states) && k < |states| && IsLate(states[k], c)
    ensures var s := states[k];
      && (c in s.settled ==> s.settled[c] == Canceled)
      && (c in s.callers && Expecting(s.callers[c]) && c !in s.settled ==> InTable(s, c))
  {
    InvAlways(states, k);
    assert LeftAlone(states[k], c) && Tracked(states[k], c);
  }

  /** The sweep after a reading loop that threw settles all it knew of but the call that was lost by it. */
  lemma SweptAfterThrowing(states: seq<System>, k: nat, c: nat)
    requires Behaviour(states) && k < |states| && states[k].reader.Ended?
    requires c in states[k].reader.known && c in states[k].callers && Expecting(states[k].callers[c])
    ensures c in states[k].settled || c in states[k].lost || Holds(states[k].closer, c)
  {
    InvAlways(states, k);
    assert Tracked(states[k], c) && Covers(states[k], states[k].reader, c);
  }

  lemma ThrowStep(s: System, step: Step)
    requires Enabled(s, step) && Threw(s.reader)
    ensures Threw(After(s, step).reader)
  {
  }

  /**
   A handler that throws, or a response that cannot be read, ends the reading for good, and then closing never
   comes to a sweep of its own.
   */
  lemma NoSweepAfterAThrow(states: seq<System>, j: nat, k: nat)
    requires Behaviour(states) && j < k < |states|
    requires var s, t := states[j], states[j + 1];
      || (s.reader.Idle? && t == After(s, HandlerThrows))
      || (s.reader.Holding? && s.reader.message.Unreadable? && t == After(s, Settle))
    ensures Threw(states[k].reader) && states[k].closer.Idle?
  {
    assert Threw(states[j + 1].reader);
    ThrewStays(states, j + 1, k);
    InvAlways(states, k);
    assert CloserFits(states[k]);
  }

  lemma {:induction false} ThrewStays(states: seq<System>, j: nat, k: nat)
    requires Behaviour(states) && j <= k < |states| && Threw(states[j].reader)
    ensures Threw(states[k].reader)
    decreases k
  {
    if j < k {
      ThrewStays(states, j, k - 1);
      assert MovesAt(states, k);
      var step :| Enabled(states[k - 1], step) && states[k] == After(states[k - 1], step);
      ThrowStep(states[k - 1], step);
    }
  }

  // --- closing comes to its end ------------------------------------------------------------------------

  /** What stands between a settler and the end of its sweep: where it is, and what it has to try. */
  function Place(settler: Settler): nat {
    match settler
    case Holding(_, _) => 4
    case Idle => 3
    case Stopping(_) => 2
    case Ended(_, _) => 0
    case _ => 1
  }

  function ToTry(settler: Settler): nat {
    match settler
    case Sweeping(todo, _, _) => 2 * |todo|
    case Sweeps(_, todo, _, _) => 2 * |todo| + 1
    case _ => 0
  }

  /** Who is known to the sweep, or would be if it began now. */
  function KnownTo(s: System, settler: Settler): set<nat> {
    if HasBegun(settler) then settler.known else EnteredCallers(s.callers)
  }

  /** The settler has come nearer to its end, and its sweep knows, or would know, as many as before. */
  ghost predicate GetsOn(a: System, b: System, before: Settler, after: Settler) {
    && b.callers == a.callers && KnownTo(b, after) == KnownTo(a, before)
    && (Place(after) < Place(before) || (Place(after) == Place(before) && ToTry(after) < ToTry(before)))
  }

  lemma EmptyIfNoKey(keys: set<int>)
    requires forall key :: key !in keys
    ensures keys == {}
  {
    assert forall key :: key in keys ==> key in {0};
    assert keys <= {};
  }

  lemma SomeKey(keys: set<int>) returns (key: int)
    requires keys != {}
    ensures key in keys
  {
    if forall k :: k !in keys {
      EmptyIfNoKey(keys);
    }
    key :| key in keys;
  }

  /** Trying a key brings a sweep on, whether somebody is still there or not. */
  lemma TryingGetsOn(a: System, b: System, settler: Settler, key: int)
    requires b.callers == a.callers && settler.Sweeping? && key in settler.todo
    ensures GetsOn(a, b, settler, Taken(a, settler, key))
  {
    assert |settler.todo - {key}| == |settler.todo| - 1;
  }

  lemma ReaderTries(s: System) returns (step: Step)
    requires s.reader.Sweeping? && s.reader.todo != {}
    ensures Enabled(s, step)
    ensures var t := After(s, step); t.closer == s.closer && GetsOn(s, t, s.reader, t.reader)
  {
    var key := SomeKey(s.reader.todo);
    TryingGetsOn(s, After(s, Take(key)), s.reader, key);
    return Take(key);
  }

  lemma CloserTries(s: System) returns (step: Step)
    requires s.closer.Sweeping? && s.closer.todo != {}
    ensures Enabled(s, step)
    ensures var t := After(s, step); t.reader == s.reader && GetsOn(s, t, s.closer, t.closer)
  {
    var key := SomeKey(s.closer.todo);
    TryingGetsOn(s, After(s, CloseTake(key)), s.closer, key);
    return CloseTake(key);
  }

  lemma ReaderGetsOn(s: System) returns (step: Step)
    requires !s.reader.Ended?
    ensures Enabled(s, step)
    ensures var t := After(s, step); t.closer == s.closer && GetsOn(s, t, s.reader, t.reader)
  {
    match s.reader
    case Idle => return Stop;
    case Holding(_, _) => return Settle;
    case Stopping(_) => return BeginSweep;
    case Sweeps(_, _, _, _) => return Fail;
    case Sweeping(todo, _, _) =>
      if todo == {} {
        return EndSweep;
      }
      step := ReaderTries(s);
  }

  lemma CloserGetsOn(s: System) returns (step: Step)
    requires CloserFits(s) && s.reader.Ended? && !s.reader.threw && !s.closer.Ended?
    ensures Enabled(s, step)
    ensures var t := After(s, step); t.reader == s.reader && GetsOn(s, t, s.closer, t.closer)
  {
    match s.closer
    case Idle => return BeginClose;
    case Sweeps(_, _, _, _) => return CloseFail;
    case Sweeping(todo, _, _) =>
      if todo == {} {
        return EndClose;
      }
      step := CloserTries(s);
  }

  lemma {:induction false} ReaderCanEnd(before: seq<System>) returns (states: seq<System>)
    requires Behaviour(before)
    ensures Behaviour(states) && before <= states
    ensures var s, t := before[|before| - 1], states[|states| - 1];
      && t.reader.Ended? && t.callers == s.callers && t.closer == s.closer
      && t.reader.known == KnownTo(s, s.reader)
    decreases Place(before[|before| - 1].reader), ToTry(before[|before| - 1].reader)
  {
    var s := before[|before| - 1];
    states := before;
    if !s.reader.Ended? {
      var step := ReaderGetsOn(s);
      var longer := Extend(before, step);
      states := ReaderCanEnd(longer);
    }
  }

  lemma {:induction false} CloserCanEnd(before: seq<System>) returns (states: seq<System>)
    requires Behaviour(before) && before[|before| - 1].reader.Ended? && !before[|before| - 1].reader.threw
    ensures Behaviour(states) && before <= states
    ensures var s, t := before[|before| - 1], states[|states| - 1];
      && t.closer.Ended? && t.callers == s.callers && t.reader == s.reader
      && t.closer.known == KnownTo(s, s.closer)
    decreases Place(before[|before| - 1].closer), ToTry(before[|before| - 1].closer)
  {
    var s := before[|before| - 1];
    states := before;
    if !s.closer.Ended? {
      InvAlways(before, |before| - 1);
      var step := CloserGetsOn(s);
      var longer := Extend(before, step);
      states := CloserCanEnd(longer);
    }
  }

  /**
   From wherever it is, the connection can be closed with no step of a caller: the last sweep ends, and every
   call that is not late for it and waits for an outcome has one by then, unless it is lost.
   */
  lemma ClosingCanEnd(before: seq<System>) returns (states: seq<System>)
    requires Behaviour(before)
    ensures Behaviour(states) && before <= states
    ensures var s, t := before[|before| - 1], states[|states| - 1];
      && t.callers == s.callers && t.reader.Ended? && (t.closer.Ended? || Threw(t.reader))
      && forall c :: c in s.callers && Expecting(s.callers[c]) && !IsLate(s, c) ==> c in t.settled || c in t.lost
  {
    var s := before[|before| - 1];
    states := ReaderCanEnd(before);
    if !states[|states| - 1].reader.threw {
      states := CloserCanEnd(states);
    }
    var t := states[|states| - 1];
    forall c | c in s.callers && Expecting(s.callers[c]) && !IsLate(s, c) ensures c in t.settled || c in t.lost {
      if t.reader.threw {
        InvAlways(states, |states| - 1);
        SweptAfterThrowing(states, |states| - 1, c);
      } else {
        SweptAfterClosing(states, |states| - 1, c);
      }
    }
  }

  // --- two calls nobody settles --------------------------------------------------------------------------

  lemma Extend(states: seq<System>, step: Step) returns (longer: seq<System>)
    requires Behaviour(states) && Enabled(states[|states| - 1], step)
    ensures Behaviour(longer) && longer == states + [After(states[|states| - 1], step)]
  {
    var last := states[|states| - 1];
    longer := states + [After(last, step)];
    assert Moves(last, After(last, step));
    forall i | 0 < i < |longer| ensures MovesAt(longer, i) {
      if i < |states| {
        assert MovesAt(states, i);
      }
    }
  }

  lemma CallAndWait(before: seq<System>, c: nat) returns (states: seq<System>)
    requires Behaviour(before) && c !in before[|before| - 1].callers
    ensures Behaviour(states)
    ensures var s, t := before[|before| - 1], states[|states| - 1];
      t == s.(next := s.next + 1, callers := s.callers[c := Waiting(s.next + 1)], table := s.table[s.next + 1 := c])
  {
    states := Extend(before, Call(c));
    states := Extend(states, Number(c));
    states := Extend(states, Register(c));
    states := Extend(states, Sent(c));
  }

  /**
   A call that found the agent running just before it closed, and enters the table once the last sweep
   has begun, waits for its timeout.
   */
  lemma CallAfterTheSweep(before: seq<System>, c: nat) returns (states: seq<System>)
    requires Behaviour(before) && HasBegun(before[|before| - 1].closer) && c !in before[|before| - 1].callers
    ensures Behaviour(states)
    ensures var s := states[|states| - 1];
      && s.closer == before[|before| - 1].closer && IsLate(s, c)
      && c in s.callers && s.callers[c].Waiting? && c !in s.settled && InTable(s, c)
  {
    var s := before[|before| - 1];
    InvAlways(before, |before| - 1);
    assert Fits(s, c);
    states := CallAndWait(before, c);
  }

  /** So does one whose error response cannot be read: it has left the table by then. */
  lemma UnreadableErrorLosesCall() returns (states: seq<System>)
    ensures Behaviour(states)
    ensures var s := states[|states| - 1];
      && s.reader.Ended? && 0 in s.reader.known && 0 in s.lost
      && 0 in s.callers && s.callers[0].Waiting? && 0 !in s.settled
  {
    states := CallAndWait([Opened], 0);
    states := Extend(states, Receive(Unreadable(1)));
    states := Extend(states, Settle);
    states := Extend(states, BeginSweep);
    var s := states[|states| - 1];
    assert s.table == map[] && s.reader.todo == {};
    states := Extend(states, EndSweep);
  }
}
