/** What a cancelled runner may still do (src/runtime/attempt-runner.ts:130-137, 214-236, 275-333, 354-365, 469-502). */
module AttemptCancels {
  import opened Basics
  import opened Execution
  import opened Attempts

  predicate IsOf(e: Event, p: nat) {
    !e.Other? && !e.Recover? && e.process == p
  }

  /** No new runner takes the number over. */
  predicate NotRestarted(events: seq<Event>, p: nat) {
    forall i :: 0 <= i < |events| ==> !(events[i].Start? && events[i].process == p)
  }

  ghost predicate Stopping(s: State, p: nat) {
    p in s.runners ==> s.runners[p].cancelled
  }

  /** How many attempts the runner launches. */
  function Launched(events: seq<Event>, p: nat): nat {
    Total((e: Event) => if e == Launch(p) then 1 else 0, events)
  }

  function StillToLaunch(s: State, p: nat): nat {
    if p in s.runners && s.runners[p].pc.Counted? then 1 else 0
  }

  /**
   Once cancelled, a runner counts no attempt and records no success: what it may still store is that it entered its series,
   or that the attempt it found or was finishing failed; and it launches at most what it had counted.
   */
  lemma CancelledStep(s: State, e: Event, p: nat)
    requires Enabled(s, e) && Stopping(s, p) && !(e.Start? && e.process == p)
    ensures var t := Apply(s, e);
            && Stopping(t, p)
            && StillToLaunch(t, p) + (if e == Launch(p) then 1 else 0) <= StillToLaunch(s, p)
            && (IsOf(e, p) && t.control != s.control ==>
                  && (e.Bind? || e.Resume? || (e.Fail? && s.runners[p].pc.Finishing?)) && t.control.series.Some?
                  && t.control.series.value.consumed == s.runners[p].series.consumed
                  && (t.control.series.value.current.Some? ==>
                        s.runners[p].series.current.Some? && t.control.series.value.current.value.id == s.runners[p].series.current.value.id
                        && (t.control.series.value.current.value.status.Failed? || t.control.series.value.current == s.runners[p].series.current)))
  {
  }

  /** In every run, a cancelled runner launches at most the attempt it had counted when it was cancelled. */
  lemma {:induction false} CancelledLaunchesNothingNew(s: State, p: nat, events: seq<Event>)
    requires Possible(s, events) && NotRestarted(events, p) && Stopping(s, p)
    ensures Launched(events, p) <= StillToLaunch(s, p) && Stopping(After(s, events), p)
    decreases |events|
  {
    hide Apply, Enabled;
    if events != [] {
      assert !(events[0].Start? && events[0].process == p) && NotRestarted(events[1..], p);
      CancelledStep(s, events[0], p);
      CancelledLaunchesNothingNew(Apply(s, events[0]), p, events[1..]);
    }
  }
}
