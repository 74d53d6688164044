/** What the settled promise of a harness run says about the run (src/harness/process.ts:361-506). */
module HarnessOutcome {
  import opened Basics
  import opened Harness

  /** What asking to terminate or to kill leaves as it was, and when it fails. */
  predicate Asked(s: State, t: State, delivered: bool) {
    && t.child == s.child && t.processStarted == s.processStarted && t.settled == s.settled && t.settledExit == s.settledExit
    && t.failure == if t.signals != s.signals && !delivered && s.failure.NoFailure? then ProcessFailure(false) else s.failure
  }

  lemma TerminateAsks(s: State, forTimeout: bool, delivered: bool)
    ensures Asked(s, Terminate(s, forTimeout, delivered), delivered)
  {
    assert |s.signals + [Sent(Sigterm, s.now)]| != |s.signals|;
  }

  lemma EscalateAsks(s: State, delivered: bool)
    ensures Asked(s, Escalate(s, delivered), delivered)
  {
    assert |s.signals + [Sent(Sigkill, s.now)]| != |s.signals|;
  }

  /** The state an event asks from: its timer is off, or its failure known. */
  function Asking(s: State, e: Event): State {
    match e
    case TimeoutFires(_) => s.(timeoutTimer := Off)
    case GraceFires(_) => s.(graceTimer := Off)
    case ProcessError(missingBinary, _) => if s.failure.TerminationFailure? then s else s.(failure := ProcessFailure(!s.processStarted && !missingBinary))
    case StreamError(_) => s.(failure := if s.failure.NoFailure? then ProcessFailure(false) else s.failure)
    case _ => s
  }

  predicate Asks(e: Event) {
    e.TimeoutFires? || e.GraceFires? || e.Abort? || e.ProcessError? || e.StreamError?
  }

  /** An event that may send a signal asks from that state, unless it is an error before the process started. */
  lemma EventAsks(s: State, e: Event)
    requires Enabled(s, e) && Asks(e)
    ensures Apply(s, e) == Complete(Asking(s, e), NO_EXIT) || Asked(Asking(s, e), Apply(s, e), e.delivered)
    ensures !(e.ProcessError? && !s.processStarted) ==> Asked(Asking(s, e), Apply(s, e), e.delivered)
  {
    TerminateAsks(Asking(s, e), e.TimeoutFires?, e.delivered);
    EscalateAsks(Asking(s, e), e.delivered);
  }

  // ----- The moment of settling -----

  /**
   A run is settled by a close, which reports its own exit; by the drain timer, which reports the exit that armed it; by an
   unanswered SIGKILL, as a termination failure; or by an error before the process started, which may be retried unless the
   binary is missing.
   */
  ghost predicate SettlesBy(s: State, e: Event, t: State) {
    match e
    case CloseEvent(exit) => t.settledExit == exit && t.failure == s.failure
    case DrainFires => t.settledExit == s.drainExit && t.failure == s.failure
    case TerminalFires => t.failure == TerminationFailure
    case ProcessError(missingBinary, _) => !s.processStarted && t.failure == ProcessFailure(!missingBinary)
    case _ => false
  }

  lemma Settling(s: State, e: Event)
    requires Inv(s) && Enabled(s, e) && !s.settled
    ensures Apply(s, e).settled ==> SettlesBy(s, e, Apply(s, e)) && Apply(s, e).settledAt == s.now
    ensures e.CloseEvent? || e.DrainFires? || e.TerminalFires? || (e.ProcessError? && !s.processStarted) ==> Apply(s, e).settled
  {
    if Asks(e) { EventAsks(s, e); }
  }

  /** The drain timer is armed once, by an exit event or by finding that the child is gone, and then keeps its exit. */
  lemma DrainKeepsItsExit(s: State, e: Event)
    requires Inv(s) && Enabled(s, e)
    ensures var t := Apply(s, e);
            t.drainTimer.Armed? ==>
              if s.drainTimer.Armed? then t.drainExit == s.drainExit
              else (e == ExitEvent(t.drainExit) || s.child == Some(t.drainExit))
  {
  }

  lemma ChildGoneIsReported(s: State, e: Event)
    requires Enabled(s, e)
    ensures Apply(s, e).child == s.child || (e.ChildGone? && Apply(s, e).child == Some(e.exit))
    ensures Apply(s, e).processStarted == s.processStarted
  {
    if Asks(e) { EventAsks(s, e); }
  }

  // ----- Failures -----

  /** A process, stream or log error, an unanswered SIGKILL, or a signal the system refused. */
  predicate Fails(s: State, e: Event)
    requires Enabled(s, e)
  {
    || e.ProcessError? || e.StreamError? || e.TerminalFires? || e == LogFinished(true)
    || ((e.TimeoutFires? || e.GraceFires? || e.Abort?) && !e.delivered && Apply(s, e).signals != s.signals)
  }

  lemma FailureIsKnownAtOnce(s: State, e: Event)
    requires Enabled(s, e)
    ensures Apply(s, e).failure.NoFailure? <==> s.failure.NoFailure? && !Fails(s, e)
  {
    if Asks(e) { EventAsks(s, e); }
  }

  predicate Unfailing(s: State, events: seq<Event>)
    requires Possible(s, events)
    decreases |events|
  {
    events == [] || (!Fails(s, events[0]) && Unfailing(Apply(s, events[0]), events[1..]))
  }

  lemma {:induction false} RunFailure(s: State, events: seq<Event>)
    requires Possible(s, events)
    ensures After(s, events).failure.NoFailure? <==> s.failure.NoFailure? && Unfailing(s, events)
    decreases |events|
  {
    if events != [] {
      FailureIsKnownAtOnce(s, events[0]);
      RunFailure(Apply(s, events[0]), events[1..]);
    }
  }

  /** The promise resolves exactly when its log has finished and nothing in the run failed; otherwise it is rejected. */
  lemma ResolvedIffUnfailing(timeout: int, processStarted: bool, events: seq<Event>)
    requires Possible(Spawned(timeout, processStarted), events)
    ensures var s := After(Spawned(timeout, processStarted), events);
            !s.outcome.Pending? ==> (s.outcome.Resolved? <==> Unfailing(Spawned(timeout, processStarted), events))
  {
    SpawnedHolds(timeout, processStarted);
    RunKeeps(Spawned(timeout, processStarted), events);
    RunFailure(Spawned(timeout, processStarted), events);
  }

  // ----- What was reported -----

  /** The exit came with an exit or close event, or stood in the child's own fields. */
  predicate Reported(past: seq<Event>, exit: Exit) {
    ExitEvent(exit) in past || CloseEvent(exit) in past || ChildGone(exit) in past
  }

  predicate EarlyError(past: seq<Event>) {
    ProcessError(false, true) in past || ProcessError(false, false) in past
  }

  /** What a state remembers did happen. */
  ghost predicate History(s: State, past: seq<Event>) {
    && (s.child.Some? ==> ChildGone(s.child.value) in past)
    && (s.drainTimer.Armed? ==> Reported(past, s.drainExit))
    && (s.settled && s.failure.NoFailure? ==> Reported(past, s.settledExit))
    && (s.failure == ProcessFailure(true) ==> !s.processStarted && EarlyError(past))
  }

  lemma OnlyEarlyErrorsAreRetryable(s: State, e: Event)
    requires Enabled(s, e) && Apply(s, e).failure == ProcessFailure(true)
    ensures s.failure == ProcessFailure(true) || (e.ProcessError? && !e.missingBinary && !s.processStarted)
  {
    if Asks(e) { EventAsks(s, e); }
  }

  lemma StaysSettled(s: State, e: Event)
    requires Inv(s) && Enabled(s, e)
    ensures s.settled ==> Apply(s, e).settled && Apply(s, e).settledExit == s.settledExit && !Apply(s, e).drainTimer.Armed?
  {
    StepKeeps(s, e);
    SettlesOnce(s, e);
  }

  lemma HistoryGrows(s: State, past: seq<Event>, e: Event)
    requires Inv(s) && Enabled(s, e) && History(s, past)
    ensures History(Apply(s, e), past + [e])
  {
    var t := Apply(s, e);
    ChildGoneIsReported(s, e);
    DrainKeepsItsExit(s, e);
    FailureIsKnownAtOnce(s, e);
    StaysSettled(s, e);
    if !s.settled { Settling(s, e); }
    if t.failure == ProcessFailure(true) { OnlyEarlyErrorsAreRetryable(s, e); }
    assert e in past + [e];
  }

  lemma {:induction false} RunHistory(s: State, past: seq<Event>, events: seq<Event>)
    requires Inv(s) && Possible(s, events) && History(s, past)
    ensures History(After(s, events), past + events)
    decreases |events|
  {
    if events == [] {
      assert past + events == past;
    } else {
      StepKeeps(s, events[0]);
      HistoryGrows(s, past, events[0]);
      RunHistory(Apply(s, events[0]), past + [events[0]], events[1..]);
      assert past + [events[0]] + events[1..] == past + events;
    }
  }

  /** A resolved promise carries an exit the run reported; a retryable failure is an error before the process started. */
  lemma OutcomeWasReported(timeout: int, processStarted: bool, events: seq<Event>)
    requires Possible(Spawned(timeout, processStarted), events)
    ensures var s := After(Spawned(timeout, processStarted), events);
            && (s.outcome.Resolved? ==> Reported(events, s.outcome.exit))
            && (s.outcome == Rejected(ProcessFailure(true)) ==> !processStarted && EarlyError(events))
  {
    SpawnedHolds(timeout, processStarted);
    RunKeeps(Spawned(timeout, processStarted), events);
    RunHistory(Spawned(timeout, processStarted), [], events);
    ProcessStartedFixed(Spawned(timeout, processStarted), events);
    assert [] + events == events;
  }

  lemma {:induction false} ProcessStartedFixed(s: State, events: seq<Event>)
    requires Possible(s, events)
    ensures After(s, events).processStarted == s.processStarted
    decreases |events|
  {
    if events != [] {
      ChildGoneIsReported(s, events[0]);
      ProcessStartedFixed(Apply(s, events[0]), events[1..]);
    }
  }

  // ----- Timing out -----

  /** The event that sent SIGTERM, if any did. */
  function Terminator(s: State, events: seq<Event>): Option<Event>
    requires Possible(s, events)
    decreases |events|
  {
    if events == [] then None
    else if s.signals == [] && Apply(s, events[0]).signals != [] then Some(events[0])
    else Terminator(Apply(s, events[0]), events[1..])
  }

  lemma TerminateTimesOut(s: State, forTimeout: bool, delivered: bool)
    requires s.terminating <==> |s.signals| >= 1
    ensures var t := Terminate(s, forTimeout, delivered);
            if t.signals == s.signals then t.timedOut == s.timedOut else s.signals == [] && t.signals != [] && t.timedOut == forTimeout
  {
  }

  /** The run is marked as timed out exactly by the event that sends SIGTERM, and only by the timeout timer. */
  predicate MarksTimeout(s: State, e: Event, t: State) {
    && t.timedOut == (if s.signals == [] && t.signals != [] then e.TimeoutFires? else s.timedOut)
    && (s.signals != [] ==> t.signals != [])
  }

  lemma GraceMarks(s: State, delivered: bool)
    requires Inv(s) && Enabled(s, GraceFires(delivered))
    ensures MarksTimeout(s, GraceFires(delivered), Apply(s, GraceFires(delivered)))
  {
  }

  lemma AskingMarks(s: State, e: Event)
    requires s.terminating <==> |s.signals| >= 1
    requires Enabled(s, e) && Asks(e) && !e.GraceFires?
    ensures MarksTimeout(s, e, Apply(s, e))
  {
    TerminateTimesOut(Asking(s, e), e.TimeoutFires?, e.delivered);
  }

  lemma OthersMark(s: State, e: Event)
    requires Enabled(s, e) && !Asks(e)
    ensures MarksTimeout(s, e, Apply(s, e))
  {
  }

  lemma TimedOutWithItsSigterm(s: State, e: Event)
    requires Inv(s) && Enabled(s, e)
    ensures MarksTimeout(s, e, Apply(s, e))
  {
    if e.GraceFires? {
      GraceMarks(s, e.delivered);
    } else if Asks(e) {
      AskingMarks(s, e);
    } else {
      OthersMark(s, e);
    }
  }

  lemma {:induction false} RunTimedOut(s: State, events: seq<Event>)
    requires Inv(s) && Possible(s, events)
    ensures After(s, events).timedOut ==
            if s.signals == [] then Terminator(s, events).Some? && Terminator(s, events).value.TimeoutFires? else s.timedOut
    decreases |events|
  {
    if events != [] {
      TimedOutWithItsSigterm(s, events[0]);
      StepKeeps(s, events[0]);
      if Apply(s, events[0]).signals != [] { NoneAfterSigterm(Apply(s, events[0]), events[1..]); }
      RunTimedOut(Apply(s, events[0]), events[1..]);
    }
  }

  lemma {:induction false} NoneAfterSigterm(s: State, events: seq<Event>)
    requires Inv(s) && Possible(s, events) && s.signals != []
    ensures Terminator(s, events).None?
    decreases |events|
  {
    if events != [] {
      TimedOutWithItsSigterm(s, events[0]);
      StepKeeps(s, events[0]);
      NoneAfterSigterm(Apply(s, events[0]), events[1..]);
    }
  }

  /** A run reports that it timed out exactly when the SIGTERM it was sent came from the timeout timer. */
  lemma TimedOutIffTimerSentSigterm(timeout: int, processStarted: bool, events: seq<Event>)
    requires Possible(Spawned(timeout, processStarted), events)
    ensures var s := After(Spawned(timeout, processStarted), events);
            var sender := Terminator(Spawned(timeout, processStarted), events);
            && (s.timedOut <==> sender.Some? && sender.value.TimeoutFires?)
            && (s.outcome.Resolved? ==> s.outcome.timedOut == s.timedOut)
  {
    SpawnedHolds(timeout, processStarted);
    RunKeeps(Spawned(timeout, processStarted), events);
    RunTimedOut(Spawned(timeout, processStarted), events);
  }
}
