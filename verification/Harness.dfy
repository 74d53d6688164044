/**
 The life of one harness process (src/harness/process.ts:361-506): four timers and a set of event callbacks
 that must settle the run exactly once, whatever order the child, its streams and the caller act in.
 Times are milliseconds since the child was spawned.
 */
module Harness {
  import opened Basics

  const POST_EXIT_DRAIN_MS := 1_000
  const SIGNAL_FAILURE_SETTLE_MS := 1_000
  const TERMINATION_GRACE_MS := 10_000

  datatype Signal = Sigterm | Sigkill

  datatype Sent = Sent(signal: Signal, at: int)

  /** Exit code and signal as the child reports them; both may be absent. */
  datatype Exit = Exit(code: Option<int>, signal: Option<string>)

  datatype Failure = NoFailure | ProcessFailure(retryable: bool) | TerminationFailure

  datatype Timer = Off | Armed(at: int)

  datatype Outcome = Pending | Resolved(exit: Exit, timedOut: bool) | Rejected(failure: Failure)

  datatype State = State(
    now: int,
    timeout: int,                // timeoutSeconds * 1000
    processStarted: bool,
    settled: bool, timedOut: bool, terminating: bool, exited: bool,
    failure: Failure,
    timeoutTimer: Timer, graceTimer: Timer, drainTimer: Timer, terminalTimer: Timer,
    drainExit: Exit,             // what the drain timer will report
    child: Option<Exit>,         // the child's own exit fields, set before its event is delivered
    signals: seq<Sent>,
    settledAt: int,
    settledExit: Exit,
    outcome: Outcome,
    settlements: nat,            // calls of resolve or reject
    terminationConfirmed: bool)

  const NO_EXIT := Exit(None, None)

  function Spawned(timeout: int, processStarted: bool): State {
    State(0, timeout, processStarted, false, false, false, false, NoFailure,
          Armed(timeout), Off, Off, Off, NO_EXIT, None, [], 0, NO_EXIT, Pending, 0, false)
  }

  function ChildExit(s: State): Exit {
    if s.child.Some? then s.child.value else NO_EXIT
  }

  /** `complete`, up to its wait for the log. */
  function Complete(s: State, exit: Exit): State {
    if s.settled then s
    else s.(settled := true, settledAt := s.now, settledExit := exit,
            timeoutTimer := Off, graceTimer := Off, drainTimer := Off, terminalTimer := Off)
  }

  function Verdict(s: State, failure: Failure): Outcome {
    if failure.NoFailure? then Resolved(s.settledExit, s.timedOut) else Rejected(failure)
  }

  /** `complete` after the log has finished. */
  function Deliver(s: State, logFailed: bool): State {
    var failure := if logFailed && !s.failure.TerminationFailure? then ProcessFailure(false) else s.failure;
    s.(failure := failure, settlements := s.settlements + 1, outcome := Verdict(s, failure))
  }

  /** `exit` */
  function OnExit(s: State, exit: Exit): State {
    var t := s.(exited := true, timeoutTimer := Off, graceTimer := Off, terminalTimer := Off);
    if s.drainTimer.Off? then t.(drainTimer := Armed(s.now + POST_EXIT_DRAIN_MS), drainExit := exit) else t
  }

  /** `signalChild`: a refused signal is remembered as a failure unless one is known already. */
  function SignalChild(s: State, signal: Signal, delivered: bool): State {
    s.(signals := s.signals + [Sent(signal, s.now)],
       failure := if !delivered && s.failure.NoFailure? then ProcessFailure(false) else s.failure)
  }

  /** `terminate` */
  function Terminate(s: State, forTimeout: bool, delivered: bool): State {
    if s.settled || s.terminating then s
    else if s.exited || s.child.Some? then OnExit(s, ChildExit(s))
    else SignalChild(s.(terminating := true, timedOut := forTimeout, timeoutTimer := Off,
                        graceTimer := Armed(s.now + TERMINATION_GRACE_MS)), Sigterm, delivered)
  }

  /** `escalate` */
  function Escalate(s: State, delivered: bool): State {
    if s.settled then s
    else if s.exited || s.child.Some? then OnExit(s, ChildExit(s))
    else SignalChild(s.(terminalTimer := Armed(s.now + SIGNAL_FAILURE_SETTLE_MS)), Sigkill, delivered)
  }

  /** `processError` */
  function OnProcessError(s: State, missingBinary: bool, delivered: bool): State {
    if s.failure.TerminationFailure? then s
    else
      var t := s.(failure := ProcessFailure(!s.processStarted && !missingBinary));
      if !s.processStarted then Complete(t, NO_EXIT)
      else if !s.terminating && !s.exited then Terminate(t, false, delivered) else t
  }

  /** `streamError` */
  function OnStreamError(s: State, delivered: bool): State {
    var t := s.(failure := if s.failure.NoFailure? then ProcessFailure(false) else s.failure);
    if s.exited then t else Terminate(t, false, delivered)
  }

  datatype Event =
    | Elapse(milliseconds: int)
    | TimeoutFires(delivered: bool)
    | GraceFires(delivered: bool)
    | DrainFires
    | TerminalFires
    | Abort(delivered: bool)
    | ChildGone(exit: Exit)                               // exit fields become visible
    | ExitEvent(exit: Exit)
    | CloseEvent(exit: Exit)
    | ProcessError(missingBinary: bool, delivered: bool)
    | StreamError(delivered: bool)
    | LogFinished(failed: bool)

  predicate IsTimer(e: Event) {
    e.TimeoutFires? || e.GraceFires? || e.DrainFires? || e.TerminalFires?
  }

  predicate IsChild(e: Event) {
    e.ChildGone? || e.ExitEvent? || e.CloseEvent?
  }

  predicate IsFault(e: Event) {
    e.Abort? || e.ProcessError? || e.StreamError?
  }

  predicate Due(s: State, timer: Timer) {
    timer.Armed? && timer.at <= s.now
  }

  predicate Enabled(s: State, e: Event) {
    match e
    case Elapse(ms) => ms >= 0
    case TimeoutFires(_) => Due(s, s.timeoutTimer)
    case GraceFires(_) => Due(s, s.graceTimer)
    case DrainFires => Due(s, s.drainTimer)
    case TerminalFires => Due(s, s.terminalTimer)
    case LogFinished(_) => s.settled && s.outcome.Pending?
    case ProcessError(_, _) => s.outcome.Pending?           // later errors meet a listener that ignores them
    case StreamError(_) => s.outcome.Pending?
    case _ => true
  }

  function Apply(s: State, e: Event): State
    requires Enabled(s, e)
  {
    match e
    case Elapse(ms) => s.(now := s.now + ms)
    case TimeoutFires(delivered) => Terminate(s.(timeoutTimer := Off), true, delivered)
    case GraceFires(delivered) => Escalate(s.(graceTimer := Off), delivered)
    case DrainFires => Complete(s.(drainTimer := Off), s.drainExit)
    case TerminalFires => Complete(s.(terminalTimer := Off, failure := TerminationFailure), ChildExit(s))
    case Abort(delivered) => Terminate(s, false, delivered)
    case ChildGone(exit) => if s.child.None? then s.(child := Some(exit)) else s
    case ExitEvent(exit) => (if s.settled then s else OnExit(s, exit)).(terminationConfirmed := true)
    case CloseEvent(exit) => Complete(s, exit).(terminationConfirmed := true)
    case ProcessError(missingBinary, delivered) => OnProcessError(s, missingBinary, delivered)
    case StreamError(delivered) => OnStreamError(s, delivered)
    case LogFinished(failed) => Deliver(s, failed)
  }

  // ----- The invariant -----

  predicate AnyArmed(s: State) {
    s.timeoutTimer.Armed? || s.graceTimer.Armed? || s.drainTimer.Armed? || s.terminalTimer.Armed?
  }

  /** SIGTERM at most once, then SIGKILL at most once and no sooner than the grace period. */
  ghost predicate SignalsOk(s: State) {
    && |s.signals| <= 2
    && (|s.signals| >= 1 ==> s.signals[0].signal == Sigterm && s.signals[0].at <= s.now)
    && (|s.signals| == 2 ==> s.signals[1].signal == Sigkill && s.signals[0].at + TERMINATION_GRACE_MS <= s.signals[1].at <= s.now)
    && (s.timedOut ==> |s.signals| >= 1 && s.signals[0].at >= s.timeout)
  }

  ghost predicate Inv(s: State) {
    && SignalsOk(s)
    && (s.terminating <==> |s.signals| >= 1)
    && s.settlements == (if s.outcome.Pending? then 0 else 1)
    && (!s.outcome.Pending? ==> s.settled)
    && (!s.outcome.Pending? ==> s.outcome == Verdict(s, s.failure))
    && (s.settled ==> !AnyArmed(s))
    && (s.failure.TerminationFailure? ==> s.settled && |s.signals| == 2 && s.signals[1].at + SIGNAL_FAILURE_SETTLE_MS <= s.settledAt)
    && (!s.settled ==>
          if s.exited then s.drainTimer.Armed? && s.timeoutTimer.Off? && s.graceTimer.Off? && s.terminalTimer.Off?
          else if !s.terminating then
            s.timeoutTimer == Armed(s.timeout) && s.graceTimer.Off? && s.terminalTimer.Off? && s.drainTimer.Off?
          else
            && s.timeoutTimer.Off? && s.drainTimer.Off?
            && (|s.signals| == 1 ==> s.terminalTimer.Off? && s.graceTimer == Armed(s.signals[0].at + TERMINATION_GRACE_MS))
            && (|s.signals| == 2 ==> s.graceTimer.Off? && s.terminalTimer == Armed(s.signals[1].at + SIGNAL_FAILURE_SETTLE_MS)))
  }

  lemma SpawnedHolds(timeout: int, processStarted: bool)
    ensures Inv(Spawned(timeout, processStarted))
  {
  }

  lemma TerminateKeeps(s: State, forTimeout: bool, delivered: bool)
    requires Inv(s) && (forTimeout ==> s.now >= s.timeout)
    ensures Inv(Terminate(s, forTimeout, delivered))
    ensures !s.settled && !s.terminating ==> Terminate(s.(timeoutTimer := Off), forTimeout, delivered) == Terminate(s, forTimeout, delivered)
  {
  }

  /**
   Asked twice, or after an exit, `terminate` sends nothing, and an exit leaves the streams to drain; otherwise one SIGTERM
   goes out and the grace period begins. The invariant is kept.
   */
  ghost predicate TerminatedOnce(s: State, t: State, forTimeout: bool) {
    && (Inv(s) && (forTimeout ==> s.now >= s.timeout) ==> Inv(t))
    && (t.signals != s.signals <==> !s.settled && !s.terminating && !s.exited && s.child.None?)
    && (t.signals != s.signals ==>
          t.signals == s.signals + [Sent(Sigterm, s.now)] && t.terminating && t.graceTimer == Armed(s.now + TERMINATION_GRACE_MS))
    && (t.signals == s.signals && !s.settled && !s.terminating ==> t.exited && t.drainTimer.Armed?)
  }

  lemma TerminateMeaning(s: State, forTimeout: bool, delivered: bool)
    ensures TerminatedOnce(s, Terminate(s, forTimeout, delivered), forTimeout)
  {
    if Inv(s) && (forTimeout ==> s.now >= s.timeout) { TerminateKeeps(s, forTimeout, delivered); }
    assert |s.signals + [Sent(Sigterm, s.now)]| != |s.signals|;
  }

  lemma EscalateKeeps(s: State, delivered: bool)
    requires Inv(s) && Due(s, s.graceTimer)
    ensures Inv(Escalate(s.(graceTimer := Off), delivered))
  {
  }

  lemma CompleteKeeps(s: State, exit: Exit)
    requires Inv(s)
    ensures Inv(Complete(s, exit))
    ensures !s.settled ==> Inv(OnExit(s, exit))
  {
  }

  lemma FailureKeeps(s: State, failure: Failure)
    requires Inv(s) && s.outcome.Pending? && !failure.TerminationFailure?
    ensures Inv(s.(failure := failure))
  {
  }

  lemma ProcessErrorKeeps(s: State, missingBinary: bool, delivered: bool)
    requires Inv(s) && s.outcome.Pending?
    ensures Inv(OnProcessError(s, missingBinary, delivered))
  {
    if !s.failure.TerminationFailure? {
      var failure := ProcessFailure(!s.processStarted && !missingBinary);
      FailureKeeps(s, failure);
      CompleteKeeps(s.(failure := failure), NO_EXIT);
      TerminateKeeps(s.(failure := failure), false, delivered);
    }
  }

  lemma StreamErrorKeeps(s: State, delivered: bool)
    requires Inv(s) && s.outcome.Pending?
    ensures Inv(OnStreamError(s, delivered))
  {
    if s.failure.NoFailure? {
      FailureKeeps(s, ProcessFailure(false));
      TerminateKeeps(s.(failure := ProcessFailure(false)), false, delivered);
    } else {
      TerminateKeeps(s, false, delivered);
    }
  }

  lemma TimerKeeps(s: State, e: Event)
    requires Inv(s) && Enabled(s, e) && IsTimer(e)
    ensures Inv(Apply(s, e))
  {
    match e
    case TimeoutFires(delivered) => TerminateKeeps(s, true, delivered);
    case GraceFires(delivered) => EscalateKeeps(s, delivered);
    case _ =>
  }

  lemma ChildKeeps(s: State, e: Event)
    requires Inv(s) && Enabled(s, e) && IsChild(e)
    ensures Inv(Apply(s, e))
  {
    if !e.ChildGone? { CompleteKeeps(s, e.exit); }
  }

  lemma FaultKeeps(s: State, e: Event)
    requires Inv(s) && Enabled(s, e) && IsFault(e)
    ensures Inv(Apply(s, e))
  {
    match e
    case Abort(delivered) => TerminateKeeps(s, false, delivered);
    case ProcessError(missingBinary, delivered) => ProcessErrorKeeps(s, missingBinary, delivered);
    case StreamError(delivered) => StreamErrorKeeps(s, delivered);
  }

  lemma QuietKeeps(s: State, e: Event)
    requires Inv(s) && Enabled(s, e) && (e.Elapse? || e.LogFinished?)
    ensures Inv(Apply(s, e))
  {
  }

  /** Every event, in whatever order it comes, keeps the invariant. */
  lemma StepKeeps(s: State, e: Event)
    requires Inv(s) && Enabled(s, e)
    ensures Inv(Apply(s, e))
  {
    if IsTimer(e) { TimerKeeps(s, e); }
    else if IsChild(e) { ChildKeeps(s, e); }
    else if IsFault(e) { FaultKeeps(s, e); }
    else { QuietKeeps(s, e); }
  }

  // ----- Runs -----

  predicate Possible(s: State, events: seq<Event>)
    decreases |events|
  {
    events == [] || (Enabled(s, events[0]) && Possible(Apply(s, events[0]), events[1..]))
  }

  function After(s: State, events: seq<Event>): State
    requires Possible(s, events)
    decreases |events|
  {
    if events == [] then s else After(Apply(s, events[0]), events[1..])
  }

  lemma {:induction false} RunKeeps(s: State, events: seq<Event>)
    requires Inv(s) && Possible(s, events)
    ensures Inv(After(s, events))
    decreases |events|
  {
    if events != [] {
      StepKeeps(s, events[0]);
      RunKeeps(Apply(s, events[0]), events[1..]);
    }
  }

  // ----- What every run guarantees -----

  /** A run that has not settled always has a timer left to settle it. */
  lemma UnsettledHasTimer(s: State)
    requires Inv(s) && !s.settled
    ensures AnyArmed(s)
  {
  }

  /** The promise is settled once, by the first completion whose log has finished, and stays as it is. */
  lemma SettlesOnce(s: State, e: Event)
    requires Inv(s) && Enabled(s, e)
    ensures Apply(s, e).settlements <= 1
    ensures !s.outcome.Pending? ==> Apply(s, e).outcome == s.outcome && Apply(s, e).settlements == s.settlements
    ensures s.settled ==> Apply(s, e).settled && Apply(s, e).settledAt == s.settledAt && Apply(s, e).settledExit == s.settledExit
    ensures s.settled && e.LogFinished? ==> !Apply(s, e).outcome.Pending?
  {
    StepKeeps(s, e);
  }

  /** What a callback may add to the signals sent. */
  ghost predicate SignalStep(s: State, t: State) {
    || t.signals == s.signals
    || (!s.exited && s.child.None? && !s.settled &&
        (   (s.signals == [] && t.signals == [Sent(Sigterm, s.now)] && t.terminating)
         || (|s.signals| == 1 && t.signals == s.signals + [Sent(Sigkill, s.now)] && s.signals[0].at + TERMINATION_GRACE_MS <= s.now)))
  }

  lemma TerminateSignals(s: State, forTimeout: bool, delivered: bool)
    requires s.terminating <==> |s.signals| >= 1
    ensures SignalStep(s, Terminate(s, forTimeout, delivered))
  {
  }

  lemma EscalateSignals(s: State, delivered: bool)
    requires Inv(s) && Due(s, s.graceTimer)
    ensures SignalStep(s, Escalate(s.(graceTimer := Off), delivered))
  {
  }

  lemma FaultSignals(s: State, e: Event)
    requires Inv(s) && Enabled(s, e) && IsFault(e)
    ensures SignalStep(s, Apply(s, e))
  {
    match e
    case Abort(delivered) => TerminateSignals(s, false, delivered);
    case ProcessError(missingBinary, delivered) =>
      TerminateSignals(s.(failure := ProcessFailure(!s.processStarted && !missingBinary)), false, delivered);
    case StreamError(delivered) =>
      TerminateSignals(s.(failure := if s.failure.NoFailure? then ProcessFailure(false) else s.failure), false, delivered);
  }

  /**
   SIGTERM comes first, SIGKILL after the grace period, each at most once, and nothing is sent once an exit was
   observed, its fields are visible, or the run settled.
   */
  lemma SignalOrder(s: State, e: Event)
    requires Inv(s) && Enabled(s, e)
    ensures SignalStep(s, Apply(s, e))
  {
    if IsFault(e) {
      FaultSignals(s, e);
    } else if e.TimeoutFires? {
      TerminateSignals(s.(timeoutTimer := Off), true, e.delivered);
    } else if e.GraceFires? {
      EscalateSignals(s, e.delivered);
    }
  }

  /** An unconfirmed termination is reported only after SIGKILL went unanswered for its settling time. */
  lemma TerminationFailureMeaning(timeout: int, processStarted: bool, events: seq<Event>)
    requires Possible(Spawned(timeout, processStarted), events)
    ensures var s := After(Spawned(timeout, processStarted), events);
            s.outcome == Rejected(TerminationFailure) ==>
              |s.signals| == 2 && s.signals[1].at + SIGNAL_FAILURE_SETTLE_MS <= s.settledAt
  {
    SpawnedHolds(timeout, processStarted);
    RunKeeps(Spawned(timeout, processStarted), events);
  }

  // ----- The deadline -----

  /** Timers fire on time: the clock does not pass an armed deadline. */
  predicate Punctual(s: State, e: Event) {
    e.Elapse? ==>
      && (s.timeoutTimer.Armed? ==> s.now + e.milliseconds <= s.timeoutTimer.at)
      && (s.graceTimer.Armed? ==> s.now + e.milliseconds <= s.graceTimer.at)
      && (s.drainTimer.Armed? ==> s.now + e.milliseconds <= s.drainTimer.at)
      && (s.terminalTimer.Armed? ==> s.now + e.milliseconds <= s.terminalTimer.at)
  }

  predicate PunctualRun(s: State, events: seq<Event>)
    requires Possible(s, events)
    decreases |events|
  {
    events == [] || (Punctual(s, events[0]) && PunctualRun(Apply(s, events[0]), events[1..]))
  }

  ghost predicate OnTime(s: State) {
    && (|s.signals| >= 1 ==> s.signals[0].at <= s.timeout)
    && (|s.signals| == 2 ==> s.signals[1].at <= s.timeout + TERMINATION_GRACE_MS)
    && (s.settled ==> s.settledAt <= s.timeout + 12_000)
    && (!s.settled ==>
          && (s.timeoutTimer.Armed? ==> s.now <= s.timeoutTimer.at)
          && (s.graceTimer.Armed? ==> s.now <= s.graceTimer.at)
          && (s.terminalTimer.Armed? ==> s.now <= s.terminalTimer.at)
          && (s.drainTimer.Armed? ==> s.now <= s.drainTimer.at <= s.timeout + 12_000))
  }

  lemma OnTimeBounds(s: State)
    requires Inv(s) && OnTime(s) && !s.settled
    ensures s.now <= s.timeout + 12_000
    ensures !s.exited ==> s.now <= s.timeout + 11_000
    ensures !s.exited && !s.terminating ==> s.now <= s.timeout
  {
  }

  lemma TerminateOnTime(s: State, forTimeout: bool, delivered: bool)
    requires Inv(s) && OnTime(s)
    ensures OnTime(Terminate(s, forTimeout, delivered))
  {
    if !s.settled { OnTimeBounds(s); }
  }

  lemma EscalateOnTime(s: State, delivered: bool)
    requires Inv(s) && OnTime(s) && Due(s, s.graceTimer)
    ensures OnTime(Escalate(s.(graceTimer := Off), delivered))
  {
    OnTimeBounds(s);
  }

  lemma CompleteOnTime(s: State, exit: Exit)
    requires Inv(s) && OnTime(s)
    ensures OnTime(Complete(s, exit))
    ensures !s.settled ==> OnTime(OnExit(s, exit))
  {
    if !s.settled { OnTimeBounds(s); }
  }

  lemma FailureOnTime(s: State, failure: Failure)
    requires Inv(s) && OnTime(s) && s.outcome.Pending? && !failure.TerminationFailure?
    ensures Inv(s.(failure := failure)) && OnTime(s.(failure := failure))
  {
  }

  lemma ProcessErrorOnTime(s: State, missingBinary: bool, delivered: bool)
    requires Inv(s) && OnTime(s) && s.outcome.Pending?
    ensures OnTime(OnProcessError(s, missingBinary, delivered))
  {
    if !s.failure.TerminationFailure? {
      var t := s.(failure := ProcessFailure(!s.processStarted && !missingBinary));
      FailureOnTime(s, t.failure);
      CompleteOnTime(t, NO_EXIT);
      TerminateOnTime(t, false, delivered);
    }
  }

  lemma StreamErrorOnTime(s: State, delivered: bool)
    requires Inv(s) && OnTime(s) && s.outcome.Pending?
    ensures OnTime(OnStreamError(s, delivered))
  {
    if s.failure.NoFailure? {
      FailureOnTime(s, ProcessFailure(false));
      TerminateOnTime(s.(failure := ProcessFailure(false)), false, delivered);
    } else {
      TerminateOnTime(s, false, delivered);
    }
  }

  lemma TimerOnTime(s: State, e: Event)
    requires Inv(s) && OnTime(s) && Enabled(s, e) && IsTimer(e)
    ensures OnTime(Apply(s, e))
  {
    match e
    case TimeoutFires(delivered) => TerminateOnTime(s, true, delivered); TerminateKeeps(s, true, delivered);
    case GraceFires(delivered) => EscalateOnTime(s, delivered);
    case DrainFires => CompleteOnTime(s, s.drainExit);
    case TerminalFires => CompleteOnTime(s, ChildExit(s)); OnTimeBounds(s);
  }

  lemma ChildOnTime(s: State, e: Event)
    requires Inv(s) && OnTime(s) && Enabled(s, e) && IsChild(e)
    ensures OnTime(Apply(s, e))
  {
    if !e.ChildGone? { CompleteOnTime(s, e.exit); }
  }

  lemma FaultOnTime(s: State, e: Event)
    requires Inv(s) && OnTime(s) && Enabled(s, e) && IsFault(e)
    ensures OnTime(Apply(s, e))
  {
    match e
    case Abort(delivered) => TerminateOnTime(s, false, delivered);
    case ProcessError(missingBinary, delivered) => ProcessErrorOnTime(s, missingBinary, delivered);
    case StreamError(delivered) => StreamErrorOnTime(s, delivered);
  }

  lemma QuietOnTime(s: State, e: Event)
    requires Inv(s) && OnTime(s) && Enabled(s, e) && Punctual(s, e) && (e.Elapse? || e.LogFinished?)
    ensures OnTime(Apply(s, e))
  {
  }

  lemma StepOnTime(s: State, e: Event)
    requires Inv(s) && OnTime(s) && Enabled(s, e) && Punctual(s, e)
    ensures OnTime(Apply(s, e))
  {
    if IsTimer(e) { TimerOnTime(s, e); }
    else if IsChild(e) { ChildOnTime(s, e); }
    else if IsFault(e) { FaultOnTime(s, e); }
    else { QuietOnTime(s, e); }
  }

  lemma HelpersKeepTimeout(s: State, forTimeout: bool, delivered: bool, exit: Exit)
    ensures Terminate(s, forTimeout, delivered).timeout == s.timeout
    ensures Escalate(s, delivered).timeout == s.timeout
    ensures Complete(s, exit).timeout == s.timeout && OnExit(s, exit).timeout == s.timeout
  {
  }

  lemma FaultKeepsTimeout(s: State, e: Event)
    requires Enabled(s, e) && IsFault(e)
    ensures Apply(s, e).timeout == s.timeout
  {
    match e
    case Abort(delivered) => HelpersKeepTimeout(s, false, delivered, NO_EXIT);
    case ProcessError(missingBinary, delivered) =>
      HelpersKeepTimeout(s.(failure := ProcessFailure(!s.processStarted && !missingBinary)), false, delivered, NO_EXIT);
    case StreamError(delivered) =>
      HelpersKeepTimeout(s.(failure := if s.failure.NoFailure? then ProcessFailure(false) else s.failure), false, delivered, NO_EXIT);
  }

  lemma TimeoutFixed(s: State, e: Event)
    requires Enabled(s, e)
    ensures Apply(s, e).timeout == s.timeout
  {
    if IsFault(e) {
      FaultKeepsTimeout(s, e);
    } else if e.TimeoutFires? {
      HelpersKeepTimeout(s.(timeoutTimer := Off), true, e.delivered, NO_EXIT);
    } else if e.GraceFires? {
      HelpersKeepTimeout(s.(graceTimer := Off), false, e.delivered, NO_EXIT);
    }
  }

  /**
   With punctual timers every run settles within its timeout plus twelve seconds, so a run still open at a time
   is open no later than that.
   */
  lemma {:induction false} SettlesByDeadline(s: State, events: seq<Event>)
    requires Inv(s) && OnTime(s) && Possible(s, events) && PunctualRun(s, events)
    ensures var t := After(s, events);
            OnTime(t) && Inv(t) && (t.settled ==> t.settledAt <= s.timeout + 12_000) && (!t.settled ==> t.now <= s.timeout + 12_000)
    decreases |events|
  {
    if events == [] {
      if !s.settled { OnTimeBounds(s); }
    } else {
      StepKeeps(s, events[0]);
      StepOnTime(s, events[0]);
      TimeoutFixed(s, events[0]);
      SettlesByDeadline(Apply(s, events[0]), events[1..]);
    }
  }

  lemma EveryRunSettlesByDeadline(timeoutSeconds: int, processStarted: bool, events: seq<Event>)
    requires 1 <= timeoutSeconds <= 86_400
    requires Possible(Spawned(timeoutSeconds * 1_000, processStarted), events)
    requires PunctualRun(Spawned(timeoutSeconds * 1_000, processStarted), events)
    ensures var s := After(Spawned(timeoutSeconds * 1_000, processStarted), events);
            (s.settled ==> s.settledAt <= timeoutSeconds * 1_000 + 12_000) && (!s.settled ==> s.now <= timeoutSeconds * 1_000 + 12_000)
  {
    SpawnedHolds(timeoutSeconds * 1_000, processStarted);
    SettlesByDeadline(Spawned(timeoutSeconds * 1_000, processStarted), events);
  }
}
