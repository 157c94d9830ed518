/**
 Where a stream ends and where the engine leaves a run are the same place (RunService.IsWhereTheEngineStops,
 RunEngine.ExecuteAsync, recover_run).
 */
module WatchedRuns {
  import opened Wrappers
  import opened Domain
  import opened StateMachine
  import opened RunStore
  import opened Scheduler
  import opened Execution
  import EventStream
  import Recovery

  // --- the states that end a stream --------------------------------------------------------------

  /** Some tasks bring a run here. */
  ghost predicate IsVerdict(state: RunState) {
    exists states :: Verdict(states) == Some(state)
  }

  /** A stream ends at exactly the states that are verdicts, and those that no move leads out of. */
  lemma StopsIff(state: RunState)
    ensures EventStream.IsWhereTheEngineStops(state) <==> IsVerdict(state) || RunMoves(state) == {}
  {
    assert Verdict({TaskState.Succeeded}) == Some(RunState.Verifying);
    assert Verdict({TaskState.Failed}) == Some(RunState.Failed);
    if IsVerdict(state) {
      var states :| Verdict(states) == Some(state);
    }
  }

  // --- the log of an execution --------------------------------------------------------------------

  /** The stream's log holds these events, in their order. */
  ghost predicate Logs(log: seq<EventStream.Event>, events: seq<DomainEvent>) {
    |log| == |events| && forall i :: 0 <= i < |log| ==> log[i].content == events[i]
  }

  /** The run had just been created when the execution began, and its log says so. */
  ghost predicate JustCreated(tables: Tables, run: RunId) {
    LogLeadsTo(tables, run) && tables.runs[run].state == RunState.Created
  }

  lemma {:induction false} NoMovesOf(events: seq<DomainEvent>, run: RunId)
    requires MovesOf(events, run) == []
    ensures forall i :: 0 <= i < |events| ==> !IsMoveOf(events[i], run)
  {
    if events != [] {
      var init := events[..|events| - 1];
      NoMovesOf(init, run);
      assert forall i :: 0 <= i < |init| ==> events[i] == init[i];
    }
  }

  /** An execution that began with a new run, and its log as a stream sees it. */
  ghost predicate Watched(history: seq<Tables>, start: nat, run: RunId, end: RunState, log: seq<EventStream.Event>) {
    && start < |history| && Told(history, start, run, end) && JustCreated(history[start], run)
    && Logs(log, history[|history| - 1].events)
  }

  lemma OnItsWayGoesOn(state: RunState)
    requires OnItsWay(state)
    ensures !EventStream.IsWhereTheEngineStops(state)
  {
    StopsIff(state);
  }

  lemma EarlierGoOn(history: seq<Tables>, start: nat, k: nat, run: RunId, log: seq<EventStream.Event>)
    requires start <= k < |history| && JustCreated(history[start], run)
    requires ToldOnItsWay(history[start], history[k], run) && Logs(log, history[k].events)
    ensures forall i :: 0 <= i < |log| && log[i].content.runId == run ==> !EventStream.StopsStream(log[i])
  {
    NoMovesOf(history[start].events, run);
    forall i | 0 <= i < |log| && log[i].content.runId == run ensures !EventStream.StopsStream(log[i]) {
      if i < |history[start].events| {
        assert log[i].content == history[start].events[i];
      } else if IsMoveOf(log[i].content, run) {
        OnItsWayGoesOn(log[i].content.payload.next);
      }
    }
  }

  /**
   When an execution ends with a verdict, or a stop seen between two rounds, the last event of its log ends
   a stream of the run, and no earlier event of the run does.
   */
  lemma LastEventStops(history: seq<Tables>, start: nat, run: RunId, end: RunState, log: seq<EventStream.Event>)
    requires Watched(history, start, run, end, log)
    requires IsVerdict(end) || end == RunState.Cancelled
    ensures log != [] && log[|log| - 1].content.runId == run && EventStream.StopsStream(log[|log| - 1])
    ensures forall i :: 0 <= i < |log| - 1 && log[i].content.runId == run ==> !EventStream.StopsStream(log[i])
  {
    StopsIff(end);
    assert !IsVerdict(RunState.Running);
    EarlierGoOn(history, start, |history| - 2, run, log[..|log| - 1]);
    assert forall i :: 0 <= i < |log| - 1 ==> log[i] == log[..|log| - 1][i];
  }

  /** While the run is Running, and for good if its tasks come to no verdict, nothing ends a stream of it. */
  lemma StuckRunsGoOn(history: seq<Tables>, start: nat, run: RunId, log: seq<EventStream.Event>)
    requires Watched(history, start, run, RunState.Running, log)
    ensures forall i :: 0 <= i < |log| && log[i].content.runId == run ==> !EventStream.StopsStream(log[i])
  {
    EarlierGoOn(history, start, |history| - 1, run, log);
  }

  // --- who watches it -----------------------------------------------------------------------------------

  /** The run's own events, of which exactly the last ends a stream. */
  lemma OwnEvents(log: seq<EventStream.Event>, run: RunId)
    requires log != [] && log[|log| - 1].content.runId == run && EventStream.StopsStream(log[|log| - 1])
    requires forall i :: 0 <= i < |log| - 1 && log[i].content.runId == run ==> !EventStream.StopsStream(log[i])
    ensures var own := EventStream.OfRun(log, run);
      && own != [] && EventStream.StopsStream(own[|own| - 1])
      && forall i :: 0 <= i < |own| - 1 ==> !EventStream.StopsStream(own[i])
  {
    var init := log[..|log| - 1];
    var earlier := EventStream.OfRun(init, run);
    forall i | 0 <= i < |earlier| ensures !EventStream.StopsStream(earlier[i]) {
      EventStream.OfRunMembers(init, run, earlier[i]);
      var j :| 0 <= j < |init| && init[j] == earlier[i];
      assert log[j] == init[j];
    }
  }

  /**
   With one writer per run, a stream of a run that has come to its end is over exactly when it has yielded
   all of the run's log, and is never left waiting for more.
   */
  lemma WatchersEndWithTheRun(history: seq<Tables>, start: nat, run: RunId, end: RunState,
                              states: seq<EventStream.System>, k: nat, w: nat)
    requires EventStream.Behaviour(states, true) && k < |states|
    requires w in states[k].watchers && states[k].watchers[w].run == run
    requires Watched(history, start, run, end, states[k].log)
    requires IsVerdict(end) || end == RunState.Cancelled
    ensures var s := states[k];
      var watcher, own := s.watchers[w], EventStream.OfRun(s.log, run);
      && watcher.output <= own && (watcher.phase.Stopped? <==> watcher.output == own) && !EventStream.Quiet(s, w)
  {
    var s := states[k];
    LastEventStops(history, start, run, end, s.log);
    OwnEvents(s.log, run);
    EventStream.OneWriterMeansPrefix(states, k, w);
    var watcher, own := s.watchers[w], EventStream.OfRun(s.log, run);
    if watcher.phase.Stopped? {
      assert watcher.output[|watcher.output| - 1] == own[|watcher.output| - 1];
    }
  }

  /** And every listening stream of it can still come to that end. */
  lemma WatchersCanEnd(history: seq<Tables>, start: nat, run: RunId, end: RunState,
                       states: seq<EventStream.System>, w: nat) returns (longer: seq<EventStream.System>)
    requires EventStream.Behaviour(states, true) && var s := states[|states| - 1];
      && w in s.watchers && s.watchers[w].run == run && EventStream.Listening(s.watchers[w])
      && Watched(history, start, run, end, s.log)
    requires IsVerdict(end) || end == RunState.Cancelled
    ensures EventStream.Behaviour(longer, true) && states <= longer
    ensures var t := longer[|longer| - 1];
      && t.log == states[|states| - 1].log && w in t.watchers && t.watchers[w].phase.Stopped?
      && t.watchers[w].output == EventStream.OfRun(t.log, run)
  {
    longer := EventStream.CanCatchUp(states, true, w);
    WatchersEndWithTheRun(history, start, run, end, longer, |longer| - 1, w);
  }

  /** A stream of a run that came to no verdict is never over. */
  lemma WatchersOfAStuckRunWait(history: seq<Tables>, start: nat, run: RunId, states: seq<EventStream.System>, k: nat,
                                w: nat)
    requires EventStream.Behaviour(states, true) && k < |states|
    requires w in states[k].watchers && states[k].watchers[w].run == run
    requires Watched(history, start, run, RunState.Running, states[k].log)
    ensures !states[k].watchers[w].phase.Stopped?
  {
    var s := states[k];
    var watcher, own := s.watchers[w], EventStream.OfRun(s.log, run);
    StuckRunsGoOn(history, start, run, s.log);
    EventStream.OneWriterMeansPrefix(states, k, w);
    forall i | 0 <= i < |own| ensures !EventStream.StopsStream(own[i]) {
      EventStream.OfRunMembers(s.log, run, own[i]);
    }
  }

  // --- recovery -----------------------------------------------------------------------------------------

  /** The move of a run that a recovery event tells, if it tells one. */
  function MoveTold(event: Recovery.Event): Option<Payload> {
    match event.what
    case RunBlocked(previous) => Some(RunMove(previous, RunState.Blocked))
    case _ => None
  }

  ghost predicate TellsAnEnd(event: Recovery.Event) {
    MoveTold(event).Some? && EventStream.IsWhereTheEngineStops(MoveTold(event).value.next)
  }

  /** Recovery ends the streams of the run it blocks with its last event, and of no other run. */
  lemma BlockingStops(before: Recovery.Store, after: Recovery.Store, run: RunId, report: Recovery.Report)
    requires Recovery.Recovered(before, after, run, report)
    ensures before.events <= after.events
    ensures forall i :: |before.events| <= i < |after.events| ==>
      (TellsAnEnd(after.events[i]) <==> i == |after.events| - 1 && Recovery.IsBlocked(before, run))
    ensures Recovery.IsBlocked(before, run) ==>
      && |before.events| < |after.events| && run in after.runs && after.runs[run].state == RunState.Blocked
      && MoveTold(after.events[|after.events| - 1]) == Some(RunMove(RunState.Running, after.runs[run].state))
  {
    StopsIff(RunState.Blocked);
  }
}
