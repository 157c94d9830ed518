/** Streaming a run's events while they are written (EventStore.cs, RunService.WatchAsync). */
module EventStream {
  import opened Domain
  import opened StateMachine
  import RunStore

  datatype EventId = EventId(value: string)

  /** An event as logged: the id the stream removes duplicates by, and what it says. */
  datatype Event = Event(id: EventId, content: RunStore.DomainEvent)

  predicate IsWhereTheEngineStops(state: RunState) {
    RunIsTerminal(state) || state == RunState.Verifying || state == RunState.Blocked
  }

  predicate StopsStream(event: Event) {
    event.content.payload.RunMove? && IsWhereTheEngineStops(event.content.payload.next)
  }

  /** One publication: committed and not yet fanned out, or on its way to the listeners it copied. */
  datatype Publication =
    | Copying(event: Event)
    | Delivering(event: Event, to: set<nat>)

  datatype Phase = Subscribed | Replaying(rest: seq<Event>) | Draining | Stopped | Left

  /** One call of WatchAsync. */
  datatype Watcher = Watcher(run: RunId, phase: Phase, channel: seq<Event>, delivered: set<EventId>, output: seq<Event>)

  datatype System = System(log: seq<Event>, flights: map<nat, Publication>, watchers: map<nat, Watcher>)

  datatype Step =
    | Commit(p: nat, event: Event)
    | Copy(p: nat)
    | Deliver(p: nat, w: nat)
    | Finish(p: nat)
    | Subscribe(w: nat, run: RunId)
    | ReadLog(w: nat)
    | Replay(w: nat)
    | Drain(w: nat)
    | Leave(w: nat)

  /** Still among the store's listeners. */
  predicate Listening(watcher: Watcher) {
    watcher.phase.Subscribed? || watcher.phase.Replaying? || watcher.phase.Draining?
  }

  /** The recorded events of a run, in commit order. */
  function OfRun(log: seq<Event>, run: RunId): seq<Event> {
    if log == [] then []
    else
      var last := log[|log| - 1];
      OfRun(log[..|log| - 1], run) + if last.content.runId == run then [last] else []
  }

  predicate Enabled(s: System, step: Step) {
    match step
    case Commit(p, event) => p !in s.flights && forall i :: 0 <= i < |s.log| ==> s.log[i].id != event.id
    case Copy(p) => p in s.flights && s.flights[p].Copying?
    case Deliver(p, w) => p in s.flights && s.flights[p].Delivering? && w in s.flights[p].to && w in s.watchers
    case Finish(p) => p in s.flights && s.flights[p].Delivering? && s.flights[p].to == {}
    case Subscribe(w, run) => w !in s.watchers
    case ReadLog(w) => w in s.watchers && s.watchers[w].phase.Subscribed?
    case Replay(w) => w in s.watchers && s.watchers[w].phase.Replaying?
    case Drain(w) => w in s.watchers && s.watchers[w].phase.Draining? && s.watchers[w].channel != []
    case Leave(w) => w in s.watchers
  }

  function After(s: System, step: Step): System
    requires Enabled(s, step)
  {
    match step
    case Commit(p, event) => s.(log := s.log + [event], flights := s.flights[p := Copying(event)])
    case Copy(p) =>
      var listeners := set w | w in s.watchers && Listening(s.watchers[w]);
      s.(flights := s.flights[p := Delivering(s.flights[p].event, listeners)])
    case Deliver(p, w) =>
      var event := s.flights[p].event;
      s.(flights := s.flights[p := Delivering(event, s.flights[p].to - {w})],
         watchers := s.watchers[w := Received(s.watchers[w], event)])
    case Finish(p) => s.(flights := s.flights - {p})
    case Subscribe(w, run) => s.(watchers := s.watchers[w := Watcher(run, Subscribed, [], {}, [])])
    case ReadLog(w) =>
      var recorded := OfRun(s.log, s.watchers[w].run);
      s.(watchers := s.watchers[w := s.watchers[w].(phase := Replaying(recorded))])
    case Replay(w) => s.(watchers := s.watchers[w := Replayed(s.watchers[w])])
    case Drain(w) => s.(watchers := s.watchers[w := Drained(s.watchers[w])])
    case Leave(w) =>
      var phase := if s.watchers[w].phase.Stopped? then Stopped else Left;
      s.(watchers := s.watchers[w := s.watchers[w].(phase := phase)])
  }

  /** The listener lambda: events of other runs are dropped. */
  function Received(watcher: Watcher, event: Event): Watcher {
    if event.content.runId == watcher.run then watcher.(channel := watcher.channel + [event]) else watcher
  }

  function Yielded(watcher: Watcher, event: Event, next: Phase): Watcher {
    watcher.(delivered := watcher.delivered + {event.id}, output := watcher.output + [event],
             phase := if StopsStream(event) then Stopped else next)
  }

  function Replayed(watcher: Watcher): Watcher
    requires watcher.phase.Replaying?
  {
    var rest := watcher.phase.rest;
    if rest == [] then watcher.(phase := Draining) else Yielded(watcher, rest[0], Replaying(rest[1..]))
  }

  function Drained(watcher: Watcher): Watcher
    requires watcher.phase.Draining? && watcher.channel != []
  {
    var event := watcher.channel[0];
    var taken := watcher.(channel := watcher.channel[1..]);
    if event.id in watcher.delivered then taken else Yielded(taken, event, Draining)
  }

  // --- runs of the system ---------------------------------------------------------------------

  predicate Initial(s: System) {
    s.flights == map[] && s.watchers == map[] && forall i, j :: 0 <= i < j < |s.log| ==> s.log[i].id != s.log[j].id
  }

  /** One writer per run: nobody commits for a run while a publication of that run is on its way. */
  predicate Alone(s: System, step: Step) {
    step.Commit? ==> forall p :: p in s.flights ==> s.flights[p].event.content.runId != step.event.content.runId
  }

  ghost predicate Moves(a: System, b: System, alone: bool) {
    exists step :: Enabled(a, step) && b == After(a, step) && (alone ==> Alone(a, step))
  }

  /** A run of the system, with any interleaving, or with one writer per run. */
  ghost predicate Behaviour(states: seq<System>, alone: bool) {
    && states != [] && Initial(states[0])
    && forall i {:trigger MovesAt(states, i, alone)} :: 0 < i < |states| ==> MovesAt(states, i, alone)
  }

  ghost predicate MovesAt(states: seq<System>, i: nat, alone: bool)
    requires 0 < i < |states|
  {
    Moves(states[i - 1], states[i], alone)
  }

  // --- the log of a run --------------------------------------------------------------------------

  lemma OfRunAppend(log: seq<Event>, event: Event, run: RunId)
    ensures OfRun(log + [event], run) == OfRun(log, run) + if event.content.runId == run then [event] else []
  {
    assert (log + [event])[..|log|] == log;
  }

  lemma {:induction false} OfRunMembers(log: seq<Event>, run: RunId, e: Event)
    ensures e in OfRun(log, run) <==> e in log && e.content.runId == run
  {
    if log != [] {
      OfRunMembers(log[..|log| - 1], run, e);
      assert log == log[..|log| - 1] + [log[|log| - 1]];
    }
  }

  ghost predicate DistinctIds(events: seq<Event>) {
    forall i, j :: 0 <= i < j < |events| ==> events[i].id != events[j].id
  }

  lemma {:induction false} OfRunDistinct(log: seq<Event>, run: RunId)
    requires DistinctIds(log)
    ensures DistinctIds(OfRun(log, run))
  {
    if log != [] {
      var init := log[..|log| - 1];
      OfRunDistinct(init, run);
      forall e | e in OfRun(init, run) ensures e.id != log[|log| - 1].id {
        OfRunMembers(init, run, e);
      }
    }
  }

  // --- exactly once, whatever the interleaving -----------------------------------------------------

  ghost function IdsOf(events: seq<Event>): set<EventId> {
    set i | 0 <= i < |events| :: events[i].id
  }

  /** Nothing is repeated, everything comes from the log, and only the last event stops the stream. */
  ghost predicate Sound(log: seq<Event>, watcher: Watcher) {
    && DistinctIds(watcher.output)
    && watcher.delivered == IdsOf(watcher.output)
    && Inside(watcher.output, log, watcher.run)
    && Inside(watcher.channel, log, watcher.run)
    && (watcher.phase.Replaying? ==>
          Inside(watcher.phase.rest, log, watcher.run) && DistinctIds(watcher.output + watcher.phase.rest))
    && (watcher.phase.Subscribed? ==> watcher.output == [])
    && (forall i :: 0 <= i < |watcher.output| - 1 ==> !StopsStream(watcher.output[i]))
    && (watcher.output != [] && StopsStream(watcher.output[|watcher.output| - 1]) <==> watcher.phase.Stopped?)
  }

  ghost predicate Inside(events: seq<Event>, log: seq<Event>, run: RunId) {
    forall i :: 0 <= i < |events| ==> events[i] in log && events[i].content.runId == run
  }

  /** A publication that will still reach the watcher. */
  predicate HeadsFor(publication: Publication, w: nat) {
    publication.Copying? || w in publication.to
  }

  ghost predicate Coming(flights: map<nat, Publication>, w: nat, event: Event) {
    exists p :: p in flights && flights[p].event == event && HeadsFor(flights[p], w)
  }

  /** Where an event of the run is, once the log has been read: yielded, to be, or on its way. */
  ghost predicate Accounted(s: System, w: nat, event: Event)
    requires w in s.watchers
  {
    var watcher := s.watchers[w];
    || event in watcher.output
    || (watcher.phase.Replaying? && event in watcher.phase.rest)
    || event in watcher.channel
    || Coming(s.flights, w, event)
  }

  ghost predicate HasRead(watcher: Watcher) {
    watcher.phase.Replaying? || watcher.phase.Draining?
  }

  ghost predicate Complete(s: System, w: nat)
    requires w in s.watchers
  {
    HasRead(s.watchers[w]) ==>
      forall e {:trigger Accounted(s, w, e)} :: e in s.log && e.content.runId == s.watchers[w].run ==>
        Accounted(s, w, e)
  }

  /** What every interleaving keeps. */
  ghost predicate Inv(s: System) {
    && DistinctIds(s.log)
    && (forall p :: p in s.flights ==> s.flights[p].event in s.log)
    && (forall w {:trigger Sound(s.log, s.watchers[w])} :: w in s.watchers ==> Sound(s.log, s.watchers[w]))
    && (forall w {:trigger Complete(s, w)} :: w in s.watchers ==> Complete(s, w))
  }

  lemma SoundGrows(log: seq<Event>, event: Event, watcher: Watcher)
    requires Sound(log, watcher)
    ensures Sound(log + [event], watcher)
  {
  }

  lemma SoundRead(log: seq<Event>, watcher: Watcher)
    requires DistinctIds(log) && Sound(log, watcher) && watcher.phase.Subscribed?
    ensures Sound(log, watcher.(phase := Replaying(OfRun(log, watcher.run))))
  {
    var rest := OfRun(log, watcher.run);
    OfRunDistinct(log, watcher.run);
    forall i | 0 <= i < |rest| ensures rest[i] in log && rest[i].content.runId == watcher.run {
      OfRunMembers(log, watcher.run, rest[i]);
    }
    assert watcher.output + rest == rest;
  }

  lemma SoundYielded(log: seq<Event>, watcher: Watcher, event: Event, next: Phase)
    requires Sound(log, watcher) && Listening(watcher) && !next.Stopped? && !next.Subscribed?
    requires event in log && event.content.runId == watcher.run && event.id !in watcher.delivered
    requires next.Replaying? ==>
      Inside(next.rest, log, watcher.run) && DistinctIds(watcher.output + [event] + next.rest)
    ensures Sound(log, Yielded(watcher, event, next))
  {
    var output := watcher.output + [event];
    assert IdsOf(output) == watcher.delivered + {event.id} by {
      assert output[|watcher.output|].id == event.id;
      forall id | id in watcher.delivered ensures id in IdsOf(output) {
        var i :| 0 <= i < |watcher.output| && watcher.output[i].id == id;
        assert output[i].id == id;
      }
    }
  }

  lemma SoundReplayed(log: seq<Event>, watcher: Watcher)
    requires Sound(log, watcher) && watcher.phase.Replaying?
    ensures Sound(log, Replayed(watcher))
  {
    var rest := watcher.phase.rest;
    if rest != [] {
      assert watcher.output + [rest[0]] + rest[1..] == watcher.output + rest;
      assert (watcher.output + rest)[|watcher.output|] == rest[0];
      forall i | 0 <= i < |watcher.output| ensures watcher.output[i].id != rest[0].id {
        assert (watcher.output + rest)[i] == watcher.output[i];
      }
      SoundYielded(log, watcher, rest[0], Replaying(rest[1..]));
    }
  }

  lemma SoundDrained(log: seq<Event>, watcher: Watcher)
    requires Sound(log, watcher) && watcher.phase.Draining? && watcher.channel != []
    ensures Sound(log, Drained(watcher))
  {
    var event := watcher.channel[0];
    var taken := watcher.(channel := watcher.channel[1..]);
    assert Sound(log, taken);
    if event.id !in watcher.delivered {
      SoundYielded(log, taken, event, Draining);
    }
  }

  lemma SoundStep(s: System, step: Step, w: nat)
    requires Inv(s) && Enabled(s, step) && w in After(s, step).watchers
    ensures Sound(After(s, step).log, After(s, step).watchers[w])
  {
    if w in s.watchers {
      assert Sound(s.log, s.watchers[w]);
      match step
      case Commit(_, event) => SoundGrows(s.log, event, s.watchers[w]);
      case ReadLog(v) => SoundRead(s.log, s.watchers[v]);
      case Replay(v) => SoundReplayed(s.log, s.watchers[v]);
      case Drain(v) => SoundDrained(s.log, s.watchers[v]);
      case _ =>
    }
  }

  // Nothing committed is lost ------------------------------------------------------------------

  /** An event stays accounted for while the system moves on around it. */
  lemma StillAccounted(s: System, step: Step, w: nat, e: Event)
    requires Inv(s) && Enabled(s, step) && w in s.watchers && HasRead(s.watchers[w])
    requires HasRead(After(s, step).watchers[w])
    requires Accounted(s, w, e) && e.content.runId == s.watchers[w].run && e in s.log
    ensures Accounted(After(s, step), w, e)
  {
    var t := After(s, step);
    if Coming(s.flights, w, e) {
      var p :| p in s.flights && s.flights[p].event == e && HeadsFor(s.flights[p], w);
      match step
      case Copy(q) =>
        assert t.flights[p].event == e && HeadsFor(t.flights[p], w);
      case Deliver(q, v) =>
        if q == p && v == w {
          assert t.watchers[w].channel[|s.watchers[w].channel|] == e;
        } else {
          assert t.flights[p].event == e && HeadsFor(t.flights[p], w);
        }
      case _ =>
        assert t.flights[p].event == e && HeadsFor(t.flights[p], w);
    } else {
      match step
      case Drain(v) =>
        if v == w {
          DrainKeeps(s.log, s.watchers[w], e);
        }
      case _ =>
    }
  }

  lemma SameIdSameEvent(log: seq<Event>, a: Event, b: Event)
    requires DistinctIds(log) && a in log && b in log && a.id == b.id
    ensures a == b
  {
  }

  lemma DrainKeeps(log: seq<Event>, watcher: Watcher, e: Event)
    requires DistinctIds(log) && Sound(log, watcher) && watcher.phase.Draining? && watcher.channel != []
    requires e in watcher.output || e in watcher.channel
    ensures e in Drained(watcher).output || e in Drained(watcher).channel
  {
    var event := watcher.channel[0];
    if e == event && event.id in watcher.delivered {
      var i :| 0 <= i < |watcher.output| && watcher.output[i].id == event.id;
      SameIdSameEvent(log, watcher.output[i], event);
    } else if e in watcher.channel && e != event {
      assert e in watcher.channel[1..];
    }
  }

  lemma CompleteStep(s: System, step: Step, w: nat)
    requires Inv(s) && Enabled(s, step) && w in After(s, step).watchers
    ensures Complete(After(s, step), w)
  {
    var t := After(s, step);
    if w in s.watchers && HasRead(t.watchers[w]) {
      assert Complete(s, w);
      forall e | e in t.log && e.content.runId == t.watchers[w].run ensures Accounted(t, w, e) {
        if step.ReadLog? && step.w == w {
          OfRunMembers(s.log, t.watchers[w].run, e);
        } else if step.Commit? && e == step.event {
          assert t.flights[step.p].event == e && HeadsFor(t.flights[step.p], w);
        } else {
          assert Accounted(s, w, e);
          StillAccounted(s, step, w, e);
        }
      }
    }
  }

  lemma InvStep(s: System, step: Step)
    requires Inv(s) && Enabled(s, step)
    ensures Inv(After(s, step))
  {
    var t := After(s, step);
    forall w | w in t.watchers ensures Sound(t.log, t.watchers[w]) { SoundStep(s, step, w); }
    forall w | w in t.watchers ensures Complete(t, w) { CompleteStep(s, step, w); }
  }

  lemma {:induction false} InvAlways(states: seq<System>, alone: bool, k: nat)
    requires Behaviour(states, alone) && k < |states|
    ensures Inv(states[k])
  {
    if k > 0 {
      InvAlways(states, alone, k - 1);
      assert MovesAt(states, k, alone);
      var step :| Enabled(states[k - 1], step) && states[k] == After(states[k - 1], step);
      InvStep(states[k - 1], step);
    }
  }

  /** Nobody is still bringing this watcher an event of its run. */
  ghost predicate Quiet(s: System, w: nat)
    requires w in s.watchers
  {
    && s.watchers[w].phase.Draining? && s.watchers[w].channel == []
    && !Pending(s.flights, w, s.watchers[w].run)
  }

  ghost predicate Pending(flights: map<nat, Publication>, w: nat, run: RunId) {
    exists p :: p in flights && flights[p].event.content.runId == run && HeadsFor(flights[p], w)
  }

  /**
   Whatever the interleaving of writers and watchers: no event is yielded twice or from another
   run, nothing follows an event that stops the stream, and a stream with nothing left to come has
   yielded exactly the events of its run.
   */
  lemma ExactlyOnce(states: seq<System>, k: nat, w: nat)
    requires Behaviour(states, false) && k < |states| && w in states[k].watchers
    ensures var s := states[k];
      var watcher := s.watchers[w];
      && DistinctIds(watcher.output)
      && (forall e :: e in watcher.output ==> e in OfRun(s.log, watcher.run))
      && (forall i :: 0 <= i < |watcher.output| - 1 ==> !StopsStream(watcher.output[i]))
      && (watcher.phase.Stopped? <==> watcher.output != [] && StopsStream(watcher.output[|watcher.output| - 1]))
      && (Quiet(s, w) ==> forall e :: e in watcher.output <==> e in OfRun(s.log, watcher.run))
  {
    InvAlways(states, false, k);
    var s := states[k];
    var watcher := s.watchers[w];
    assert Sound(s.log, watcher) && Complete(s, w);
    forall e ensures e in watcher.output ==> e in OfRun(s.log, watcher.run)
             ensures Quiet(s, w) && e in OfRun(s.log, watcher.run) ==> e in watcher.output
    {
      OfRunMembers(s.log, watcher.run, e);
      if Quiet(s, w) && e in OfRun(s.log, watcher.run) {
        assert Accounted(s, w, e);
      }
    }
  }

  // --- one writer per run ------------------------------------------------------------------------------

  /** Every publication under way is the only one of its run, and of the run's latest event. */
  ghost predicate OneFlightEach(s: System) {
    && (forall p {:trigger IsLatest(s, p)} :: p in s.flights ==> IsLatest(s, p))
    && (forall p, q ::
          (&& p in s.flights && q in s.flights
           && s.flights[p].event.content.runId == s.flights[q].event.content.runId) ==> p == q)
  }

  ghost predicate IsLatest(s: System, p: nat)
    requires p in s.flights
  {
    var own := OfRun(s.log, s.flights[p].event.content.runId);
    own != [] && own[|own| - 1] == s.flights[p].event
  }

  /** How much of the run's log has been, or can no longer be, delivered to the watcher. */
  ghost function Sent(s: System, w: nat, run: RunId): int {
    |OfRun(s.log, run)| - if Pending(s.flights, w, run) then 1 else 0
  }

  /** The channel is the latest stretch of the log, and it starts no later than what is known already ends. */
  ghost predicate Aligned(s: System, w: nat)
    requires w in s.watchers
  {
    var watcher := s.watchers[w];
    AlignedTo(watcher, OfRun(s.log, watcher.run), Sent(s, w, watcher.run))
  }

  ghost predicate AlignedTo(watcher: Watcher, log: seq<Event>, sent: int) {
    && (Listening(watcher) ==>
        |watcher.channel| <= sent <= |log| && watcher.channel == log[sent - |watcher.channel|..sent])
    && match watcher.phase
       case Subscribed => watcher.output == []
       case Replaying(rest) =>
         |watcher.output + rest| <= |log| && watcher.output + rest == log[..|watcher.output + rest|] &&
         sent - |watcher.channel| <= |watcher.output + rest|
       case Draining =>
         |watcher.output| <= |log| && watcher.output == log[..|watcher.output|] &&
         sent - |watcher.channel| <= |watcher.output|
       case _ => |watcher.output| <= |log| && watcher.output == log[..|watcher.output|]
  }

  ghost predicate Lined(s: System) {
    OneFlightEach(s) && forall w {:trigger Aligned(s, w)} :: w in s.watchers ==> Aligned(s, w)
  }

  lemma LogGrows(watcher: Watcher, log: seq<Event>, event: Event, sent: int)
    requires AlignedTo(watcher, log, sent)
    ensures AlignedTo(watcher, log + [event], sent)
  {
  }

  lemma ReceivesLatest(watcher: Watcher, log: seq<Event>)
    requires log != [] && AlignedTo(watcher, log, |log| - 1) && log[|log| - 1].content.runId == watcher.run
    ensures AlignedTo(Received(watcher, log[|log| - 1]), log, |log|)
  {
  }

  lemma AlignedReplay(watcher: Watcher, log: seq<Event>, sent: int)
    requires AlignedTo(watcher, log, sent) && watcher.phase.Replaying?
    ensures AlignedTo(Replayed(watcher), log, sent)
  {
    var rest := watcher.phase.rest;
    if rest == [] {
      assert watcher.output + rest == watcher.output;
    } else {
      var output := watcher.output + [rest[0]];
      assert output + rest[1..] == watcher.output + rest;
      assert output == log[..|output|];
    }
  }

  lemma AlignedDrain(watcher: Watcher, log: seq<Event>, sent: int)
    requires AlignedTo(watcher, log, sent) && watcher.phase.Draining? && watcher.channel != []
    requires DistinctIds(log) && watcher.delivered == IdsOf(watcher.output)
    ensures AlignedTo(Drained(watcher), log, sent)
  {
    var at := sent - |watcher.channel|;
    assert watcher.channel[0] == log[at];
    assert watcher.channel[1..] == log[at + 1..sent];
    if at < |watcher.output| {
      assert watcher.output[at] == log[at];
      assert log[at].id in watcher.delivered;
    } else {
      assert log[at].id !in watcher.delivered;
      assert watcher.output + [log[at]] == log[..at + 1];
    }
  }

  lemma LatestStep(s: System, step: Step, p: nat)
    requires OneFlightEach(s) && Enabled(s, step) && Alone(s, step) && p in After(s, step).flights
    ensures IsLatest(After(s, step), p)
  {
    if step.Commit? {
      OfRunAppend(s.log, step.event, After(s, step).flights[p].event.content.runId);
    }
    if p in s.flights {
      assert IsLatest(s, p);
    }
  }

  lemma OneFlightStep(s: System, step: Step)
    requires OneFlightEach(s) && Enabled(s, step) && Alone(s, step)
    ensures OneFlightEach(After(s, step))
  {
    forall p | p in After(s, step).flights ensures IsLatest(After(s, step), p) {
      LatestStep(s, step, p);
    }
  }

  /** What is on its way to the watcher after a step, judged by what was before. */
  lemma PendingStep(s: System, step: Step, w: nat)
    requires OneFlightEach(s) && Enabled(s, step) && Alone(s, step) && w in s.watchers && Listening(s.watchers[w])
    ensures var t := After(s, step);
      var run := s.watchers[w].run;
      Pending(t.flights, w, run) <==>
        if step.Commit? && step.event.content.runId == run then true
        else if step.Deliver? && step.w == w && s.flights[step.p].event.content.runId == run then false
        else Pending(s.flights, w, run)
  {
    var t := After(s, step);
    var run := s.watchers[w].run;
    if step.Commit? && step.event.content.runId == run {
      assert HeadsFor(t.flights[step.p], w);
    } else if !(step.Deliver? && step.w == w && s.flights[step.p].event.content.runId == run) {
      if p :| p in s.flights && s.flights[p].event.content.runId == run && HeadsFor(s.flights[p], w) {
        assert p in t.flights && t.flights[p].event == s.flights[p].event && HeadsFor(t.flights[p], w);
      }
      if p :| p in t.flights && t.flights[p].event.content.runId == run && HeadsFor(t.flights[p], w) {
        assert p in s.flights && s.flights[p].event == t.flights[p].event && HeadsFor(s.flights[p], w);
      }
    }
  }

  lemma AlignedStep(s: System, step: Step, w: nat)
    requires Inv(s) && Lined(s) && Enabled(s, step) && Alone(s, step) && w in After(s, step).watchers
    ensures Aligned(After(s, step), w)
  {
    if w in s.watchers {
      assert Aligned(s, w) && Sound(s.log, s.watchers[w]);
      if step.Commit? {
        AlignedCommit(s, step, w);
      } else if !Listening(s.watchers[w]) {
      } else if step.Deliver? {
        AlignedDeliver(s, step, w);
      } else {
        PendingStep(s, step, w);
        AlignedMove(s, step, w);
      }
    } else {
      PendingMeansLogged(s, w, step.run);
    }
  }

  lemma PendingMeansLogged(s: System, w: nat, run: RunId)
    requires OneFlightEach(s)
    ensures Pending(s.flights, w, run) ==> OfRun(s.log, run) != []
  {
    if p :| p in s.flights && s.flights[p].event.content.runId == run && HeadsFor(s.flights[p], w) {
      assert IsLatest(s, p);
    }
  }

  lemma AlignedCommit(s: System, step: Step, w: nat)
    requires Lined(s) && step.Commit? && Enabled(s, step) && Alone(s, step) && w in s.watchers && Aligned(s, w)
    ensures Aligned(After(s, step), w)
  {
    var watcher := s.watchers[w];
    var log, sent := OfRun(s.log, watcher.run), Sent(s, w, watcher.run);
    OfRunAppend(s.log, step.event, watcher.run);
    if Listening(watcher) {
      PendingStep(s, step, w);
    }
    if step.event.content.runId == watcher.run {
      assert !Pending(s.flights, w, watcher.run);
      LogGrows(watcher, log, step.event, sent);
      SentMatters(watcher, log + [step.event], sent, Sent(After(s, step), w, watcher.run));
    } else {
      assert log + [] == log;
      SentMatters(watcher, log, sent, Sent(After(s, step), w, watcher.run));
    }
  }

  lemma SentMatters(watcher: Watcher, log: seq<Event>, sent: int, later: int)
    requires AlignedTo(watcher, log, sent) && (Listening(watcher) ==> sent == later)
    ensures AlignedTo(watcher, log, later)
  {
  }

  lemma AlignedDeliver(s: System, step: Step, w: nat)
    requires Lined(s) && step.Deliver? && Enabled(s, step) && w in s.watchers && Listening(s.watchers[w])
    requires Aligned(s, w)
    ensures Aligned(After(s, step), w)
  {
    PendingStep(s, step, w);
    if step.w == w && s.flights[step.p].event.content.runId == s.watchers[w].run {
      AlignedReceive(s, step, w);
    } else {
      AlignedAs(s, After(s, step), w, s.watchers[w]);
    }
  }

  lemma AlignedReceive(s: System, step: Step, w: nat)
    requires OneFlightEach(s) && step.Deliver? && step.w == w && Enabled(s, step) && Listening(s.watchers[w])
    requires Aligned(s, w)
    requires s.flights[step.p].event.content.runId == s.watchers[w].run
    requires !Pending(After(s, step).flights, w, s.watchers[w].run)
    ensures Aligned(After(s, step), w)
  {
    var watcher, event := s.watchers[w], s.flights[step.p].event;
    assert IsLatest(s, step.p) && HeadsFor(s.flights[step.p], w);
    assert Pending(s.flights, w, watcher.run);
    ReceivesLatest(watcher, OfRun(s.log, watcher.run));
    assert After(s, step).watchers[w] == Received(watcher, event);
  }

  /** Where the watcher, its log and what is on its way come out the same, so does the alignment. */
  lemma AlignedAs(s: System, t: System, w: nat, watcher: Watcher)
    requires w in s.watchers && w in t.watchers && t.watchers[w] == watcher && watcher.run == s.watchers[w].run
    requires t.log == s.log && (Pending(t.flights, w, watcher.run) <==> Pending(s.flights, w, watcher.run))
    requires AlignedTo(watcher, OfRun(s.log, watcher.run), Sent(s, w, watcher.run))
    ensures Aligned(t, w)
  {
  }

  /** The watcher's own steps. */
  function Moved(watcher: Watcher, log: seq<Event>, step: Step, w: nat): Watcher
    requires step == Replay(w) ==> watcher.phase.Replaying?
    requires step == Drain(w) ==> watcher.phase.Draining? && watcher.channel != []
  {
    if step == ReadLog(w) then watcher.(phase := Replaying(log))
    else if step == Replay(w) then Replayed(watcher)
    else if step == Drain(w) then Drained(watcher)
    else if step == Leave(w) then watcher.(phase := Left)
    else watcher
  }

  lemma MovedAligned(watcher: Watcher, log: seq<Event>, sent: int, step: Step, w: nat)
    requires AlignedTo(watcher, log, sent) && DistinctIds(log) && watcher.delivered == IdsOf(watcher.output)
    requires step == ReadLog(w) ==> watcher.phase.Subscribed?
    requires step == Replay(w) ==> watcher.phase.Replaying?
    requires step == Drain(w) ==> watcher.phase.Draining? && watcher.channel != []
    ensures AlignedTo(Moved(watcher, log, step, w), log, sent) && Moved(watcher, log, step, w).run == watcher.run
  {
    if step == ReadLog(w) {
      assert [] + log == log == log[..|log|];
    } else if step == Replay(w) {
      AlignedReplay(watcher, log, sent);
    } else if step == Drain(w) {
      AlignedDrain(watcher, log, sent);
    } else if step == Leave(w) {
      LeftAligned(watcher, log, sent);
    }
  }

  lemma MovesAsTold(s: System, step: Step, w: nat)
    requires Enabled(s, step) && !step.Commit? && !step.Deliver? && w in s.watchers && Listening(s.watchers[w])
    ensures After(s, step).log == s.log && w in After(s, step).watchers
    ensures After(s, step).watchers[w] == Moved(s.watchers[w], OfRun(s.log, s.watchers[w].run), step, w)
  {
  }

  lemma AlignedMove(s: System, step: Step, w: nat)
    requires DistinctIds(s.log) && Enabled(s, step) && !step.Commit? && !step.Deliver?
    requires w in s.watchers && Listening(s.watchers[w]) && Aligned(s, w) && Sound(s.log, s.watchers[w])
    requires Pending(After(s, step).flights, w, s.watchers[w].run) <==> Pending(s.flights, w, s.watchers[w].run)
    ensures Aligned(After(s, step), w)
  {
    var watcher := s.watchers[w];
    var log, sent := OfRun(s.log, watcher.run), Sent(s, w, watcher.run);
    OfRunDistinct(s.log, watcher.run);
    MovedAligned(watcher, log, sent, step, w);
    MovesAsTold(s, step, w);
    AlignedAs(s, After(s, step), w, Moved(watcher, log, step, w));
  }

  lemma LeftAligned(watcher: Watcher, log: seq<Event>, sent: int)
    requires AlignedTo(watcher, log, sent)
    ensures AlignedTo(watcher.(phase := Left), log, sent)
  {
    if watcher.phase.Replaying? {
      var known := watcher.output + watcher.phase.rest;
      assert watcher.output == known[..|watcher.output|] == log[..|watcher.output|];
    }
  }

  lemma LinedStep(s: System, step: Step)
    requires Inv(s) && Lined(s) && Enabled(s, step) && Alone(s, step)
    ensures Lined(After(s, step))
  {
    OneFlightStep(s, step);
    forall w | w in After(s, step).watchers ensures Aligned(After(s, step), w) { AlignedStep(s, step, w); }
  }

  lemma {:induction false} LinedAlways(states: seq<System>, k: nat)
    requires Behaviour(states, true) && k < |states|
    ensures Lined(states[k])
  {
    if k > 0 {
      LinedAlways(states, k - 1);
      InvAlways(states, true, k - 1);
      assert MovesAt(states, k, true);
      var step :| Enabled(states[k - 1], step) && states[k] == After(states[k - 1], step) && Alone(states[k - 1], step);
      LinedStep(states[k - 1], step);
    }
  }

  /**
   With one writer per run, a stream is at every moment the beginning of the run's log, in commit
   order; it stops at the first event that says so, and catches up with the whole log otherwise.
   */
  lemma OneWriterMeansPrefix(states: seq<System>, k: nat, w: nat)
    requires Behaviour(states, true) && k < |states| && w in states[k].watchers
    ensures var s := states[k];
      var watcher := s.watchers[w];
      var log := OfRun(s.log, watcher.run);
      && watcher.output <= log
      && (forall i :: 0 <= i < |watcher.output| - 1 ==> !StopsStream(log[i]))
      && (watcher.phase.Stopped? <==> watcher.output != [] && StopsStream(log[|watcher.output| - 1]))
      && (Quiet(s, w) ==> watcher.output == log)
  {
    InvAlways(states, true, k);
    LinedAlways(states, k);
    var s := states[k];
    assert Sound(s.log, s.watchers[w]) && Aligned(s, w);
  }

  // --- several writers ------------------------------------------------------------------------------------

  /**
   One writer per run is needed: of two commits for one run, the later may be delivered first, and
   if it stops the stream the earlier is never yielded although it is in the log.
   */
  lemma TwoWritersCanLoseAnEvent(run: RunId, first: Event, last: Event) returns (states: seq<System>)
    requires first.id != last.id && first.content.runId == last.content.runId == run
    requires !StopsStream(first) && StopsStream(last)
    ensures Behaviour(states, false)
    ensures var end := states[|states| - 1];
      && OfRun(end.log, run) == [first, last]
      && end.flights == map[]
      && 0 in end.watchers && end.watchers[0].phase.Stopped? && end.watchers[0].output == [last]
  {
    LogOfTwo(run, first, last);
    states := BothOnTheirWay(run, first, last);
    states := LastComesFirst(states, run, first, last);
    states := FirstComesTooLate(states, run, first, last);
  }

  lemma LogOfTwo(run: RunId, first: Event, last: Event)
    requires first.content.runId == last.content.runId == run
    ensures OfRun([first, last], run) == [first, last]
  {
    var both, one := [first, last], [first];
    assert one[..0] == [] && OfRun(one, run) == [] + [first] == one;
    assert both[..1] == one && OfRun(both, run) == one + [last] == both;
  }

  lemma FirstComesTooLate(before: seq<System>, run: RunId, first: Event, last: Event) returns (states: seq<System>)
    requires Behaviour(before, false)
    requires before[|before| - 1] == System([first, last], map[1 := Delivering(first, {0}), 2 := Delivering(last, {})],
                                            map[0 := Watcher(run, Stopped, [], {last.id}, [last])])
    ensures Behaviour(states, false)
    ensures var end := states[|states| - 1];
      end.log == [first, last] && end.flights == map[] && 0 in end.watchers &&
      end.watchers[0].phase.Stopped? && end.watchers[0].output == [last]
  {
    states := Extend(before, Finish(2));
    assert states[|states| - 1].flights == map[1 := Delivering(first, {0})];
    states := Extend(states, Deliver(1, 0));
    assert {0} - {0} == {} && states[|states| - 1].flights == map[1 := Delivering(first, {})];
    states := Extend(states, Finish(1));
  }

  lemma LastComesFirst(before: seq<System>, run: RunId, first: Event, last: Event) returns (states: seq<System>)
    requires Behaviour(before, false) && before[|before| - 1] == OnTheirWay(run, first, last)
    requires last.content.runId == run && StopsStream(last)
    ensures Behaviour(states, false)
    ensures states[|states| - 1] == System([first, last], map[1 := Delivering(first, {0}), 2 := Delivering(last, {})],
                                           map[0 := Watcher(run, Stopped, [], {last.id}, [last])])
  {
    states := Extend(before, Deliver(2, 0));
    var end := states[|states| - 1];
    assert {0} - {0} == {} && end.flights == map[1 := Delivering(first, {0}), 2 := Delivering(last, {})];
    assert end.watchers[0] == Watcher(run, Draining, [last], {}, []);
    assert end.watchers == map[0 := Watcher(run, Draining, [last], {}, [])];
    states := Extend(states, Drain(0));
    end := states[|states| - 1];
    assert end.watchers[0] == Watcher(run, Stopped, [], {last.id}, [last]);
    assert end.watchers == map[0 := Watcher(run, Stopped, [], {last.id}, [last])];
  }

  /** Both events are logged and copied for the watcher, and neither has reached it. */
  function OnTheirWay(run: RunId, first: Event, last: Event): System {
    System([first, last], map[1 := Delivering(first, {0}), 2 := Delivering(last, {0})],
           map[0 := Watcher(run, Draining, [], {}, [])])
  }

  lemma BothOnTheirWay(run: RunId, first: Event, last: Event) returns (states: seq<System>)
    requires first.id != last.id
    ensures Behaviour(states, false) && states[|states| - 1] == OnTheirWay(run, first, last)
  {
    states := Watching(run);
    states := Extend(states, Commit(1, first));
    states := Extend(states, Commit(2, last));
    var end := states[|states| - 1];
    assert end.log == [first, last] && end.flights == map[1 := Copying(first), 2 := Copying(last)];
    assert (set w | w in end.watchers && Listening(end.watchers[w])) == {0};
    states := Extend(states, Copy(1));
    end := states[|states| - 1];
    assert (set w | w in end.watchers && Listening(end.watchers[w])) == {0};
    states := Extend(states, Copy(2));
    end := states[|states| - 1];
    assert end.flights[1] == Delivering(first, {0}) && end.flights[2] == Delivering(last, {0});
    assert end.flights == map[1 := Delivering(first, {0}), 2 := Delivering(last, {0})];
  }

  lemma Watching(run: RunId) returns (states: seq<System>)
    ensures Behaviour(states, false)
    ensures states[|states| - 1] == System([], map[], map[0 := Watcher(run, Draining, [], {}, [])])
  {
    states := [System([], map[], map[])];
    states := Extend(states, Subscribe(0, run));
    states := Extend(states, ReadLog(0));
    states := Extend(states, Replay(0));
  }

  lemma Extend(states: seq<System>, step: Step) returns (longer: seq<System>)
    requires Behaviour(states, false) && Enabled(states[|states| - 1], step)
    ensures Behaviour(longer, false) && |longer| == |states| + 1 && states <= longer
    ensures longer[|longer| - 1] == After(states[|states| - 1], step)
  {
    longer := states + [After(states[|states| - 1], step)];
    forall i | 0 < i < |longer| ensures MovesAt(longer, i, false) {
      if i < |states| {
        assert MovesAt(states, i, false);
        assert Moves(longer[i - 1], longer[i], false);
      } else {
        assert Enabled(longer[i - 1], step) && longer[i] == After(longer[i - 1], step);
      }
    }
  }

  /** A publication and the channels it still heads for: what is on its way has not arrived. */
  ghost predicate OnTheWay(s: System) {
    && (forall p, q :: p in s.flights && q in s.flights && s.flights[p].event == s.flights[q].event ==> p == q)
    && (forall p, w {:trigger NotArrived(s, p, w)} :: p in s.flights && w in s.watchers ==> NotArrived(s, p, w))
  }

  ghost predicate NotArrived(s: System, p: nat, w: nat)
    requires p in s.flights && w in s.watchers
  {
    HeadsFor(s.flights[p], w) ==> s.flights[p].event !in s.watchers[w].channel
  }

  lemma ArrivalStep(s: System, step: Step, p: nat, w: nat)
    requires Inv(s) && OnTheWay(s) && Enabled(s, step) && p in After(s, step).flights && w in After(s, step).watchers
    ensures NotArrived(After(s, step), p, w)
  {
    if p in s.flights && w in s.watchers {
      assert NotArrived(s, p, w);
    }
    if step.Commit? && p == step.p && w in s.watchers {
      assert Sound(s.log, s.watchers[w]);
      NotLoggedYet(s, step.event, w);
    }
  }

  lemma NotLoggedYet(s: System, event: Event, w: nat)
    requires w in s.watchers && Sound(s.log, s.watchers[w]) && forall i :: 0 <= i < |s.log| ==> s.log[i].id != event.id
    ensures event !in s.log
    ensures forall e :: e in s.watchers[w].channel || e in s.watchers[w].output ==> e.id != event.id
  {
  }

  lemma OnTheWayStep(s: System, step: Step)
    requires Inv(s) && OnTheWay(s) && Enabled(s, step)
    ensures OnTheWay(After(s, step))
  {
    var t := After(s, step);
    forall p, w | p in t.flights && w in t.watchers ensures NotArrived(t, p, w) { ArrivalStep(s, step, p, w); }
    if step.Commit? {
      forall p | p in s.flights ensures s.flights[p].event != step.event {
        assert s.flights[p].event in s.log;
      }
    }
  }

  lemma {:induction false} AlwaysOnTheWay(states: seq<System>, k: nat)
    requires Behaviour(states, false) && k < |states|
    ensures OnTheWay(states[k])
  {
    if k > 0 {
      AlwaysOnTheWay(states, k - 1);
      InvAlways(states, false, k - 1);
      assert MovesAt(states, k, false);
      var step :| Enabled(states[k - 1], step) && states[k] == After(states[k - 1], step);
      OnTheWayStep(states[k - 1], step);
    }
  }

  // What a second writer can do -----------------------------------------------------------------

  /** The log has b after a. */
  ghost predicate Later(log: seq<Event>, a: Event, b: Event) {
    exists i, j :: 0 <= i < j < |log| && log[i] == a && log[j] == b
  }

  lemma LaterOnceLogged(log: seq<Event>, event: Event, a: Event, b: Event)
    requires DistinctIds(log + [event]) && b in log
    ensures Later(log + [event], a, b) <==> Later(log, a, b)
  {
    var longer := log + [event];
    if i, j :| 0 <= i < j < |log| && log[i] == a && log[j] == b {
      assert longer[i] == a && longer[j] == b;
    }
    if i, j :| 0 <= i < j < |longer| && longer[i] == a && longer[j] == b {
      assert j < |log| by {
        var k :| 0 <= k < |log| && log[k] == b;
        assert longer[k] == b;
      }
      assert log[i] == a && log[j] == b;
    }
  }

  /** The watcher has yielded an event that is logged after one it has not yielded. */
  ghost predicate Overtaken(s: System, w: nat, missed: Event) {
    && w in s.watchers && missed !in s.watchers[w].output
    && exists e :: e in s.watchers[w].output && Later(s.log, missed, e)
  }

  lemma {:induction false} OfRunKeepsOrder(log: seq<Event>, run: RunId, a: Event, b: Event)
    requires Later(log, a, b) && a.content.runId == b.content.runId == run
    ensures Later(OfRun(log, run), a, b)
  {
    var i, j :| 0 <= i < j < |log| && log[i] == a && log[j] == b;
    var init := log[..|log| - 1];
    var own := OfRun(init, run);
    if j < |log| - 1 {
      assert init[i] == a && init[j] == b;
      OfRunKeepsOrder(init, run, a, b);
      var k, l :| 0 <= k < l < |own| && own[k] == a && own[l] == b;
      assert OfRun(log, run)[k] == a && OfRun(log, run)[l] == b;
    } else {
      assert init[i] == a;
      OfRunMembers(init, run, a);
      var k :| 0 <= k < |own| && own[k] == a;
      assert OfRun(log, run)[k] == a && OfRun(log, run)[|own|] == b;
    }
  }

  /** So what it has yielded is not the beginning of the run's log. */
  lemma OvertakenIsNoPrefix(s: System, w: nat, missed: Event)
    requires Inv(s) && Overtaken(s, w, missed) && missed.content.runId == s.watchers[w].run
    ensures !(s.watchers[w].output <= OfRun(s.log, s.watchers[w].run))
  {
    var watcher := s.watchers[w];
    assert Sound(s.log, watcher);
    var e :| e in watcher.output && Later(s.log, missed, e);
    var own := OfRun(s.log, watcher.run);
    OfRunDistinct(s.log, watcher.run);
    OfRunKeepsOrder(s.log, watcher.run, missed, e);
    if watcher.output <= own {
      PrefixHasEarlier(watcher.output, own, missed, e);
    }
  }

  lemma PrefixHasEarlier(output: seq<Event>, own: seq<Event>, a: Event, b: Event)
    requires DistinctIds(own) && output <= own && Later(own, a, b) && b in output
    ensures a in output
  {
    var i, j :| 0 <= i < j < |own| && own[i] == a && own[j] == b;
    var k :| 0 <= k < |output| && output[k] == b;
    assert own[k] == own[j] && k == j;
    assert output[i] == a;
  }

  /** An event that stops the stream waits in the channel, before the missed one and all that is logged later. */
  ghost predicate CutOff(log: seq<Event>, watcher: Watcher, missed: Event) {
    exists i :: 0 <= i < |watcher.channel| && CutsOff(log, watcher.channel, i, missed)
  }

  ghost predicate CutsOff(log: seq<Event>, channel: seq<Event>, i: nat, missed: Event)
    requires i < |channel|
  {
    StopsStream(channel[i]) && forall k :: 0 <= k <= i ==> channel[k] != missed && !Later(log, missed, channel[k])
  }

  ghost predicate CanBeOvertaken(states: seq<System>, w: nat, missed: Event) {
    exists longer :: Behaviour(longer, false) && states <= longer && Overtaken(longer[|longer| - 1], w, missed)
  }

  /**
   What one writer per run is worth. While a publication of a run still heads for a watcher that is
   draining and has not yielded it, a second commit for that run can be yielded first, exactly unless
   an event that stops the stream cuts the watcher off before.
   */
  lemma OvertakenIff(states: seq<System>, p: nat, w: nat, q: nat, second: Event)
    requires Behaviour(states, false) && var s := states[|states| - 1];
      && p in s.flights && w in s.watchers && HeadsFor(s.flights[p], w)
      && s.flights[p].event.content.runId == s.watchers[w].run == second.content.runId
      && s.watchers[w].phase.Draining? && s.flights[p].event !in s.watchers[w].output
      && Enabled(s, Commit(q, second))
    ensures var s, missed := states[|states| - 1], states[|states| - 1].flights[p].event;
      CanBeOvertaken(states, w, missed) <==> Overtaken(s, w, missed) || !CutOff(s.log, s.watchers[w], missed)
  {
    var last := |states| - 1;
    var s, missed := states[last], states[last].flights[p].event;
    if Overtaken(s, w, missed) {
      assert states <= states;
    } else if CutOff(s.log, s.watchers[w], missed) {
      assert OutOfReach(s, w, missed);
      forall longer | Behaviour(longer, false) && states <= longer
        ensures !Overtaken(longer[|longer| - 1], w, missed)
      {
        assert longer[last] == s;
        StaysOutOfReach(longer, last, |longer| - 1, w, missed);
      }
    } else {
      var longer := SecondWriterOvertakes(states, p, w, q, second);
    }
  }

  /** It has yielded the event, or nothing that is logged later; and will yield nothing logged later. */
  ghost predicate OutOfReach(s: System, w: nat, missed: Event) {
    && w in s.watchers
    && var watcher := s.watchers[w];
       || missed in watcher.output
       || (&& (forall e :: e in watcher.output ==> !Later(s.log, missed, e))
           && (watcher.phase.Stopped? || watcher.phase.Left? ||
               (watcher.phase.Draining? && CutOff(s.log, watcher, missed))))
  }

  lemma ReachStep(s: System, step: Step, w: nat, missed: Event)
    requires Inv(s) && Enabled(s, step) && OutOfReach(s, w, missed)
    ensures OutOfReach(After(s, step), w, missed)
  {
    var t := After(s, step);
    assert Sound(s.log, s.watchers[w]);
    if missed in s.watchers[w].output {
      assert missed in t.watchers[w].output;
    } else {
      match step
      case Commit(_, event) => ReachCommit(s, step, w, missed);
      case Deliver(p, v) =>
        if v == w && s.watchers[w].phase.Draining? {
          CutOffReceived(s.log, s.watchers[w], s.flights[p].event, missed);
        }
      case Drain(v) =>
        if v == w {
          CutOffDrained(s.log, s.watchers[w], missed);
        }
      case _ =>
    }
  }

  lemma ReachCommit(s: System, step: Step, w: nat, missed: Event)
    requires Inv(s) && Enabled(s, step) && step.Commit? && OutOfReach(s, w, missed)
    requires missed !in s.watchers[w].output
    ensures OutOfReach(After(s, step), w, missed)
  {
    var watcher, log := s.watchers[w], s.log + [step.event];
    assert Sound(s.log, watcher) && DistinctIds(log);
    forall e | e in watcher.output ensures !Later(log, missed, e) {
      LaterOnceLogged(s.log, step.event, missed, e);
    }
    if watcher.phase.Draining? {
      var i :| 0 <= i < |watcher.channel| && CutsOff(s.log, watcher.channel, i, missed);
      forall k | 0 <= k <= i ensures !Later(log, missed, watcher.channel[k]) {
        LaterOnceLogged(s.log, step.event, missed, watcher.channel[k]);
      }
      assert CutsOff(log, watcher.channel, i, missed);
    }
  }

  lemma CutOffReceived(log: seq<Event>, watcher: Watcher, event: Event, missed: Event)
    requires CutOff(log, watcher, missed)
    ensures CutOff(log, Received(watcher, event), missed)
  {
    var i :| 0 <= i < |watcher.channel| && CutsOff(log, watcher.channel, i, missed);
    assert CutsOff(log, Received(watcher, event).channel, i, missed);
  }

  lemma CutOffDrained(log: seq<Event>, watcher: Watcher, missed: Event)
    requires DistinctIds(log) && Sound(log, watcher) && watcher.phase.Draining? && CutOff(log, watcher, missed)
    requires forall e :: e in watcher.output ==> !Later(log, missed, e)
    ensures var next := Drained(watcher);
      && (forall e :: e in next.output ==> !Later(log, missed, e))
      && (next.phase.Stopped? || (next.phase.Draining? && CutOff(log, next, missed)))
  {
    var next := Drained(watcher);
    var i :| 0 <= i < |watcher.channel| && CutsOff(log, watcher.channel, i, missed);
    if i == 0 {
      StopIsNew(log, watcher, watcher.channel[0]);
    } else {
      assert forall k :: 0 <= k <= i - 1 ==> next.channel[k] == watcher.channel[k + 1];
      assert CutsOff(log, next.channel, i - 1, missed);
    }
  }

  /** Who still drains has not yielded any event that stops the stream. */
  lemma StopIsNew(log: seq<Event>, watcher: Watcher, event: Event)
    requires DistinctIds(log) && Sound(log, watcher) && watcher.phase.Draining? && event in watcher.channel
    requires StopsStream(event)
    ensures event.id !in watcher.delivered
  {
    if event.id in watcher.delivered {
      YieldedBefore(log, watcher, event);
    }
  }

  lemma YieldedBefore(log: seq<Event>, watcher: Watcher, event: Event)
    requires DistinctIds(log) && Sound(log, watcher) && event in watcher.channel && event.id in watcher.delivered
    ensures event in watcher.output
  {
    var i :| 0 <= i < |watcher.output| && watcher.output[i].id == event.id;
    assert watcher.output[i] in log && event in log;
  }

  lemma {:induction false} StaysOutOfReach(states: seq<System>, i: nat, j: nat, w: nat, missed: Event)
    requires Behaviour(states, false) && i <= j < |states| && OutOfReach(states[i], w, missed)
    ensures OutOfReach(states[j], w, missed)
    decreases j
  {
    if i < j {
      StaysOutOfReach(states, i, j - 1, w, missed);
      InvAlways(states, false, j - 1);
      assert MovesAt(states, j, false);
      var step :| Enabled(states[j - 1], step) && states[j] == After(states[j - 1], step);
      ReachStep(states[j - 1], step, w, missed);
    }
  }

  /** The second commit is delivered, and the channel drained until something logged later is yielded. */
  lemma SecondWriterOvertakes(states: seq<System>, p: nat, w: nat, q: nat, second: Event)
    returns (longer: seq<System>)
    requires Behaviour(states, false) && var s := states[|states| - 1];
      && p in s.flights && w in s.watchers && HeadsFor(s.flights[p], w)
      && s.flights[p].event.content.runId == s.watchers[w].run == second.content.runId
      && s.watchers[w].phase.Draining? && s.flights[p].event !in s.watchers[w].output
      && Enabled(s, Commit(q, second)) && !CutOff(s.log, s.watchers[w], s.flights[p].event)
      && !Overtaken(s, w, s.flights[p].event)
    ensures Behaviour(longer, false) && states <= longer
    ensures Overtaken(longer[|longer| - 1], w, states[|states| - 1].flights[p].event)
  {
    var k := |states| - 1;
    var s, missed := states[k], states[k].flights[p].event;
    InvAlways(states, false, k);
    AlwaysOnTheWay(states, k);
    assert NotArrived(s, p, w) && Sound(s.log, s.watchers[w]) && missed in s.log;
    NotLoggedYet(s, second, w);
    longer := DeliverSecond(states, w, q, second);
    assert DistinctIds(s.log + [second]);
    ArrivesLast(s.log, s.watchers[w], second, missed);
    StillNotOvertaken(s, w, second, missed, longer[|longer| - 1]);
    longer := DrainToLater(longer, w, missed);
  }

  lemma DeliverSecond(states: seq<System>, w: nat, q: nat, second: Event) returns (longer: seq<System>)
    requires Behaviour(states, false) && var s := states[|states| - 1];
      && w in s.watchers && s.watchers[w].phase.Draining? && s.watchers[w].run == second.content.runId
      && Enabled(s, Commit(q, second))
    ensures Behaviour(longer, false) && states <= longer
    ensures var s, t := states[|states| - 1], longer[|longer| - 1];
      && t.log == s.log + [second]
      && t.watchers == s.watchers[w := s.watchers[w].(channel := s.watchers[w].channel + [second])]
  {
    longer := Extend(states, Commit(q, second));
    longer := Extend(longer, Copy(q));
    longer := Extend(longer, Deliver(q, w));
  }

  lemma StillNotOvertaken(s: System, w: nat, second: Event, missed: Event, t: System)
    requires w in s.watchers && w in t.watchers && t.log == s.log + [second] && DistinctIds(t.log)
    requires Sound(s.log, s.watchers[w]) && t.watchers[w].output == s.watchers[w].output
    requires missed !in s.watchers[w].output && !Overtaken(s, w, missed)
    ensures !Overtaken(t, w, missed)
  {
    forall e | e in s.watchers[w].output ensures !Later(t.log, missed, e) {
      LaterOnceLogged(s.log, second, missed, e);
    }
  }

  /** Something logged after the missed event waits in the channel, and nothing before it stops the stream. */
  ghost predicate WithinReach(log: seq<Event>, channel: seq<Event>, missed: Event) {
    exists n :: 0 <= n < |channel| && ReachedAt(log, channel, n, missed)
  }

  ghost predicate ReachedAt(log: seq<Event>, channel: seq<Event>, n: nat, missed: Event)
    requires n < |channel|
  {
    Later(log, missed, channel[n]) && forall k :: 0 <= k < n ==> !StopsStream(channel[k])
  }

  lemma {:induction false} FirstLater(log: seq<Event>, channel: seq<Event>, missed: Event) returns (n: nat)
    requires exists e :: e in channel && Later(log, missed, e)
    ensures n < |channel| && Later(log, missed, channel[n])
    ensures forall k :: 0 <= k < n ==> !Later(log, missed, channel[k])
  {
    if Later(log, missed, channel[0]) {
      n := 0;
    } else {
      var e :| e in channel && Later(log, missed, e);
      assert e in channel[1..];
      n := FirstLater(log, channel[1..], missed);
      n := n + 1;
    }
  }

  lemma ArrivesLast(log: seq<Event>, watcher: Watcher, second: Event, missed: Event)
    requires DistinctIds(log + [second]) && missed in log && Sound(log, watcher)
    requires missed !in watcher.channel && !CutOff(log, watcher, missed)
    ensures WithinReach(log + [second], watcher.channel + [second], missed)
  {
    var longer, channel := log + [second], watcher.channel + [second];
    var i :| 0 <= i < |log| && log[i] == missed;
    assert longer[i] == missed && longer[|log|] == second && channel[|watcher.channel|] == second;
    assert second in channel && Later(longer, missed, second);
    var n := FirstLater(longer, channel, missed);
    forall k | 0 <= k < n ensures !StopsStream(channel[k]) {
      forall l | 0 <= l <= k ensures !Later(log, missed, watcher.channel[l]) {
        assert channel[l] == watcher.channel[l];
        LaterOnceLogged(log, second, missed, watcher.channel[l]);
      }
      assert !CutsOff(log, watcher.channel, k, missed);
    }
    assert ReachedAt(longer, channel, n, missed);
  }

  lemma {:induction false} DrainToLater(states: seq<System>, w: nat, missed: Event) returns (longer: seq<System>)
    requires Behaviour(states, false) && var s := states[|states| - 1];
      && w in s.watchers && s.watchers[w].phase.Draining? && !Overtaken(s, w, missed)
      && missed !in s.watchers[w].output && missed !in s.watchers[w].channel
      && WithinReach(s.log, s.watchers[w].channel, missed)
    ensures Behaviour(longer, false) && states <= longer && Overtaken(longer[|longer| - 1], w, missed)
    decreases |states[|states| - 1].watchers[w].channel|
  {
    var s := states[|states| - 1];
    InvAlways(states, false, |states| - 1);
    assert Sound(s.log, s.watchers[w]);
    longer := Extend(states, Drain(w));
    OneDrained(s, w, missed);
    if !Overtaken(longer[|longer| - 1], w, missed) {
      longer := DrainToLater(longer, w, missed);
    }
  }

  lemma OneDrained(s: System, w: nat, missed: Event)
    requires w in s.watchers && s.watchers[w].phase.Draining? && !Overtaken(s, w, missed)
    requires DistinctIds(s.log) && Sound(s.log, s.watchers[w])
    requires missed !in s.watchers[w].output && missed !in s.watchers[w].channel
    requires WithinReach(s.log, s.watchers[w].channel, missed)
    ensures var t := After(s, Drain(w));
      || Overtaken(t, w, missed)
      || (&& t.watchers[w].phase.Draining? && t.watchers[w].channel == s.watchers[w].channel[1..]
          && missed !in t.watchers[w].output && missed !in t.watchers[w].channel
          && WithinReach(t.log, t.watchers[w].channel, missed))
  {
    var watcher, t := s.watchers[w], After(s, Drain(w));
    var head := watcher.channel[0];
    var n :| 0 <= n < |watcher.channel| && ReachedAt(s.log, watcher.channel, n, missed);
    if n == 0 {
      LaterIsNew(s, w, missed, head);
      assert head in t.watchers[w].output;
    } else {
      assert forall k :: 0 <= k < n ==> t.watchers[w].channel[k] == watcher.channel[k + 1];
      assert ReachedAt(t.log, t.watchers[w].channel, n - 1, missed);
    }
  }

  lemma LaterIsNew(s: System, w: nat, missed: Event, event: Event)
    requires w in s.watchers && !Overtaken(s, w, missed) && missed !in s.watchers[w].output
    requires DistinctIds(s.log) && Sound(s.log, s.watchers[w])
    requires event in s.watchers[w].channel && Later(s.log, missed, event)
    ensures event.id !in s.watchers[w].delivered
  {
    if event.id in s.watchers[w].delivered {
      YieldedBefore(s.log, s.watchers[w], event);
    }
  }

  // Nobody is left behind ----------------------------------------------------------------------------

  /** Any step but a commit, in a behaviour with one writer per run or with several. */
  lemma GoOn(states: seq<System>, alone: bool, step: Step) returns (longer: seq<System>)
    requires Behaviour(states, alone) && Enabled(states[|states| - 1], step) && !step.Commit?
    ensures Behaviour(longer, alone) && |longer| == |states| + 1 && states <= longer
    ensures longer[|longer| - 1] == After(states[|states| - 1], step)
  {
    var last := states[|states| - 1];
    longer := states + [After(last, step)];
    assert Moves(last, After(last, step), alone);
    forall i | 0 < i < |longer| ensures MovesAt(longer, i, alone) {
      if i < |states| {
        assert MovesAt(states, i, alone);
      }
    }
  }

  /** Reads the log and replays it. */
  lemma {:induction false} ToDraining(states: seq<System>, alone: bool, w: nat) returns (longer: seq<System>)
    requires Behaviour(states, alone) && var s := states[|states| - 1]; w in s.watchers && Listening(s.watchers[w])
    ensures Behaviour(longer, alone) && states <= longer
    ensures var s, t := states[|states| - 1], longer[|longer| - 1];
      && t.log == s.log && t.flights == s.flights && w in t.watchers && t.watchers[w].run == s.watchers[w].run
      && (t.watchers[w].phase.Draining? || t.watchers[w].phase.Stopped?)
    decreases StepsToDraining(states[|states| - 1], w)
  {
    var phase := states[|states| - 1].watchers[w].phase;
    longer := states;
    if phase.Subscribed? {
      longer := GoOn(states, alone, ReadLog(w));
      longer := ToDraining(longer, alone, w);
    } else if phase.Replaying? {
      longer := GoOn(states, alone, Replay(w));
      if !longer[|longer| - 1].watchers[w].phase.Stopped? {
        longer := ToDraining(longer, alone, w);
      }
    }
  }

  function StepsToDraining(s: System, w: nat): nat
    requires w in s.watchers
  {
    match s.watchers[w].phase
    case Subscribed => |OfRun(s.log, s.watchers[w].run)| + 2
    case Replaying(rest) => |rest| + 1
    case _ => 0
  }

  /** The publications that still head for the watcher. */
  ghost function Heading(s: System, w: nat): set<nat> {
    set p | p in s.flights && HeadsFor(s.flights[p], w)
  }

  /** Brings the watcher all that heads for it. */
  lemma {:induction false} BringAll(states: seq<System>, alone: bool, w: nat) returns (longer: seq<System>)
    requires Behaviour(states, alone)
    requires var s := states[|states| - 1]; w in s.watchers && s.watchers[w].phase.Draining?
    ensures Behaviour(longer, alone) && states <= longer
    ensures var s, t := states[|states| - 1], longer[|longer| - 1];
      && t.log == s.log && w in t.watchers && t.watchers[w].run == s.watchers[w].run
      && t.watchers[w].phase.Draining? && Heading(t, w) == {}
    decreases |Heading(states[|states| - 1], w)|
  {
    var s := states[|states| - 1];
    longer := states;
    if Heading(s, w) != {} {
      var p :| p in Heading(s, w);
      longer := BringOne(states, alone, w, p);
      assert Heading(longer[|longer| - 1], w) == Heading(s, w) - {p};
      longer := BringAll(longer, alone, w);
    }
  }

  lemma BringOne(states: seq<System>, alone: bool, w: nat, p: nat) returns (longer: seq<System>)
    requires Behaviour(states, alone) && var s := states[|states| - 1];
      w in s.watchers && s.watchers[w].phase.Draining? && p in s.flights && HeadsFor(s.flights[p], w)
    ensures Behaviour(longer, alone) && states <= longer
    ensures var s, t := states[|states| - 1], longer[|longer| - 1];
      && t.log == s.log && t.flights.Keys == s.flights.Keys && !HeadsFor(t.flights[p], w)
      && (forall q :: q in s.flights && q != p ==> t.flights[q] == s.flights[q])
      && w in t.watchers && t.watchers[w].run == s.watchers[w].run && t.watchers[w].phase.Draining?
  {
    longer := states;
    if states[|states| - 1].flights[p].Copying? {
      longer := GoOn(longer, alone, Copy(p));
    }
    longer := GoOn(longer, alone, Deliver(p, w));
  }

  /** Yields what waits in the channel, or stops on the way. */
  lemma {:induction false} DrainAll(states: seq<System>, alone: bool, w: nat) returns (longer: seq<System>)
    requires Behaviour(states, alone)
    requires var s := states[|states| - 1]; w in s.watchers && s.watchers[w].phase.Draining?
    ensures Behaviour(longer, alone) && states <= longer
    ensures var s, t := states[|states| - 1], longer[|longer| - 1];
      && t.log == s.log && t.flights == s.flights && w in t.watchers && t.watchers[w].run == s.watchers[w].run
      && (t.watchers[w].phase.Stopped? || (t.watchers[w].phase.Draining? && t.watchers[w].channel == []))
    decreases |states[|states| - 1].watchers[w].channel|
  {
    longer := states;
    if states[|states| - 1].watchers[w].channel != [] {
      longer := GoOn(states, alone, Drain(w));
      if !longer[|longer| - 1].watchers[w].phase.Stopped? {
        longer := DrainAll(longer, alone, w);
      }
    }
  }

  /**
   Whatever has happened so far, every listening stream can come to its end without another commit: it
   stops at an event that says so, or has yielded exactly the events of its run.
   */
  lemma CanCatchUp(states: seq<System>, alone: bool, w: nat) returns (longer: seq<System>)
    requires Behaviour(states, alone) && var s := states[|states| - 1]; w in s.watchers && Listening(s.watchers[w])
    ensures Behaviour(longer, alone) && states <= longer
    ensures var s, t := states[|states| - 1], longer[|longer| - 1];
      && t.log == s.log && w in t.watchers && t.watchers[w].run == s.watchers[w].run
      && (t.watchers[w].phase.Stopped? ||
          (Quiet(t, w) && forall e :: e in t.watchers[w].output <==> e in OfRun(t.log, t.watchers[w].run)))
  {
    longer := ToDraining(states, alone, w);
    if longer[|longer| - 1].watchers[w].phase.Draining? {
      longer := BringAll(longer, alone, w);
      longer := DrainAll(longer, alone, w);
      NothingHeads(longer[|longer| - 1], w);
      AnyBehaviour(longer, alone);
      ExactlyOnce(longer, |longer| - 1, w);
    }
  }

  lemma NothingHeads(s: System, w: nat)
    requires w in s.watchers && Heading(s, w) == {}
    ensures !Pending(s.flights, w, s.watchers[w].run)
  {
    assert forall p :: p in s.flights && HeadsFor(s.flights[p], w) ==> p in Heading(s, w);
  }

  lemma AnyBehaviour(states: seq<System>, alone: bool)
    requires Behaviour(states, alone)
    ensures Behaviour(states, false)
  {
    forall i | 0 < i < |states| ensures MovesAt(states, i, false) {
      assert MovesAt(states, i, alone);
    }
  }
}
