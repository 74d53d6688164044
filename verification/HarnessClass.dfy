/** The closure of src/harness/process.ts:361-506 as an object: its variables are fields and its callbacks methods. */
module HarnessClass {
  import opened Basics
  import H = Harness

  class HarnessRun {
    var now: int
    const timeout: int
    const processStarted: bool
    var settled: bool
    var timedOut: bool
    var terminating: bool
    var exited: bool
    var failure: H.Failure
    var timeoutTimer: H.Timer
    var graceTimer: H.Timer
    var drainTimer: H.Timer
    var terminalTimer: H.Timer
    var drainExit: H.Exit
    var child: Option<H.Exit>
    var signals: seq<H.Sent>
    var settledAt: int
    var settledExit: H.Exit
    var outcome: H.Outcome
    var settlements: nat
    var terminationConfirmed: bool

    function Model(): H.State
      reads this
    {
      H.State(now, timeout, processStarted, settled, timedOut, terminating, exited, failure,
              timeoutTimer, graceTimer, drainTimer, terminalTimer, drainExit, child, signals,
              settledAt, settledExit, outcome, settlements, terminationConfirmed)
    }

    ghost predicate Valid()
      reads this
    {
      H.Inv(Model())
    }

    constructor (timeoutSeconds: int, processStarted: bool)
      requires 1 <= timeoutSeconds <= 86_400
      ensures Valid() && Model() == H.Spawned(timeoutSeconds * 1_000, processStarted)
    {
      now, timeout, this.processStarted := 0, timeoutSeconds * 1_000, processStarted;
      settled, timedOut, terminating, exited := false, false, false, false;
      failure := H.NoFailure;
      timeoutTimer, graceTimer, drainTimer, terminalTimer := H.Armed(timeoutSeconds * 1_000), H.Off, H.Off, H.Off;
      drainExit, child, signals := H.NO_EXIT, None, [];
      settledAt, settledExit, outcome, settlements := 0, H.NO_EXIT, H.Pending, 0;
      terminationConfirmed := false;
      new;
      H.SpawnedHolds(timeoutSeconds * 1_000, processStarted);
    }

    /** The promise settles through here once the log has finished. */
    method Deliver(logFailed: bool)
      requires Valid() && settled && outcome.Pending?
      modifies this
      ensures Valid() && Model() == H.Deliver(old(Model()), logFailed)
    {
      H.StepKeeps(Model(), H.LogFinished(logFailed));
      if logFailed && !failure.TerminationFailure? {
        failure := H.ProcessFailure(false);
      }
      settlements := settlements + 1;
      if failure.NoFailure? {
        outcome := H.Resolved(settledExit, timedOut);
      } else {
        outcome := H.Rejected(failure);
      }
    }

    method StopLifecycle()
      modifies `timeoutTimer, `graceTimer, `drainTimer, `terminalTimer
      ensures timeoutTimer.Off? && graceTimer.Off? && drainTimer.Off? && terminalTimer.Off?
    {
      timeoutTimer, graceTimer, drainTimer, terminalTimer := H.Off, H.Off, H.Off, H.Off;
    }

    method Complete(exit: H.Exit)
      modifies `settled, `settledAt, `settledExit, `timeoutTimer, `graceTimer, `drainTimer, `terminalTimer
      ensures Model() == H.Complete(old(Model()), exit)
    {
      if !settled {
        settled := true;
        settledAt := now;
        settledExit := exit;
        StopLifecycle();
      }
    }

    method Exit(exit: H.Exit)
      modifies `exited, `timeoutTimer, `graceTimer, `terminalTimer, `drainTimer, `drainExit
      ensures Model() == H.OnExit(old(Model()), exit)
    {
      exited := true;
      timeoutTimer, graceTimer, terminalTimer := H.Off, H.Off, H.Off;
      if drainTimer.Off? {
        drainTimer := H.Armed(now + H.POST_EXIT_DRAIN_MS);
        drainExit := exit;
      }
    }

    method SignalChild(signal: H.Signal, delivered: bool)
      modifies `signals, `failure
      ensures Model() == H.SignalChild(old(Model()), signal, delivered)
    {
      signals := signals + [H.Sent(signal, now)];
      if !delivered && failure.NoFailure? {
        failure := H.ProcessFailure(false);
      }
    }

    /** Asked to terminate twice, or after an exit, it sends nothing; otherwise exactly one SIGTERM, and the grace timer runs. */
    method Terminate(forTimeout: bool, delivered: bool)
      modifies this
      ensures Model() == H.Terminate(old(Model()), forTimeout, delivered)
      ensures H.TerminatedOnce(old(Model()), Model(), forTimeout)
    {
      hide H.TerminatedOnce;
      H.TerminateMeaning(Model(), forTimeout, delivered);
      if settled || terminating { return; }
      if exited || child.Some? {
        Exit(if child.Some? then child.value else H.NO_EXIT);
        return;
      }
      terminating, timedOut := true, forTimeout;
      timeoutTimer := H.Off;
      graceTimer := H.Armed(now + H.TERMINATION_GRACE_MS);
      SignalChild(H.Sigterm, delivered);
    }

    method Escalate(delivered: bool)
      modifies this
      ensures Model() == H.Escalate(old(Model()), delivered)
    {
      if settled { return; }
      if exited || child.Some? {
        Exit(if child.Some? then child.value else H.NO_EXIT);
        return;
      }
      terminalTimer := H.Armed(now + H.SIGNAL_FAILURE_SETTLE_MS);
      SignalChild(H.Sigkill, delivered);
    }

    method OnTimeout(delivered: bool)
      requires Valid() && H.Due(Model(), timeoutTimer)
      modifies this
      ensures Valid() && Model() == H.Apply(old(Model()), H.TimeoutFires(delivered)) && H.SignalStep(old(Model()), Model())
    {
      H.StepKeeps(Model(), H.TimeoutFires(delivered));
      H.SignalOrder(Model(), H.TimeoutFires(delivered));
      timeoutTimer := H.Off;
      Terminate(true, delivered);
    }

    method OnGrace(delivered: bool)
      requires Valid() && H.Due(Model(), graceTimer)
      modifies this
      ensures Valid() && Model() == H.Apply(old(Model()), H.GraceFires(delivered)) && H.SignalStep(old(Model()), Model())
    {
      H.StepKeeps(Model(), H.GraceFires(delivered));
      H.SignalOrder(Model(), H.GraceFires(delivered));
      graceTimer := H.Off;
      Escalate(delivered);
    }

    method OnDrain()
      requires Valid() && H.Due(Model(), drainTimer)
      modifies this
      ensures Valid() && Model() == H.Apply(old(Model()), H.DrainFires)
    {
      H.StepKeeps(Model(), H.DrainFires);
      drainTimer := H.Off;
      Complete(drainExit);
    }

    method OnTerminal()
      requires Valid() && H.Due(Model(), terminalTimer)
      modifies this
      ensures Valid() && Model() == H.Apply(old(Model()), H.TerminalFires)
    {
      H.StepKeeps(Model(), H.TerminalFires);
      terminalTimer := H.Off;
      failure := H.TerminationFailure;
      Complete(if child.Some? then child.value else H.NO_EXIT);
    }

    method OnAbort(delivered: bool)
      requires Valid()
      modifies this
      ensures Valid() && Model() == H.Apply(old(Model()), H.Abort(delivered)) && H.SignalStep(old(Model()), Model())
    {
      H.StepKeeps(Model(), H.Abort(delivered));
      H.SignalOrder(Model(), H.Abort(delivered));
      Terminate(false, delivered);
    }

    method OnExit(exit: H.Exit)
      requires Valid()
      modifies this
      ensures Valid() && Model() == H.Apply(old(Model()), H.ExitEvent(exit))
    {
      H.StepKeeps(Model(), H.ExitEvent(exit));
      terminationConfirmed := true;
      if !settled { Exit(exit); }
    }

    method OnClose(exit: H.Exit)
      requires Valid()
      modifies this
      ensures Valid() && Model() == H.Apply(old(Model()), H.CloseEvent(exit))
    {
      H.StepKeeps(Model(), H.CloseEvent(exit));
      terminationConfirmed := true;
      Complete(exit);
    }

    method OnProcessError(missingBinary: bool, delivered: bool)
      requires Valid() && outcome.Pending?
      modifies this
      ensures Valid() && Model() == H.OnProcessError(old(Model()), missingBinary, delivered)
    {
      H.ProcessErrorKeeps(Model(), missingBinary, delivered);
      if failure.TerminationFailure? { return; }
      failure := H.ProcessFailure(if processStarted then false else !missingBinary);
      if !processStarted {
        Complete(H.NO_EXIT);
      } else if !terminating && !exited {
        Terminate(false, delivered);
      }
    }

    method OnStreamError(delivered: bool)
      requires Valid() && outcome.Pending?
      modifies this
      ensures Valid() && Model() == H.OnStreamError(old(Model()), delivered)
    {
      H.StreamErrorKeeps(Model(), delivered);
      if failure.NoFailure? { failure := H.ProcessFailure(false); }
      if !exited { Terminate(false, delivered); }
    }
  }
}
