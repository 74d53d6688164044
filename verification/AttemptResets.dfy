/**
 How far the claim "launches since the last reset never exceed the consumed count" holds. An attempt that was counted
 but not launched when the budget is reset is launched afterwards without being counted again; that is the only way
 for a reset to break the claim.
 (src/runtime/attempt-runner.ts:349-452, src/runtime/reconcile.ts:1771-1780.)
 */
module AttemptResets {
  import opened Basics
  import opened Execution
  import opened Attempts
  import opened AttemptBudget

  /** Some runner has counted an attempt it has not launched. */
  ghost predicate SomePending(s: State) {
    exists p :: p in s.runners && s.runners[p].pc.Counted?
  }

  /** A run during which the consumed count does not start over. */
  ghost predicate WithinEpoch(s: State, events: seq<Event>) {
    Possible(s, events) && NeverBehind(s, events) && |After(s, events).epochs| == |s.epochs|
  }

  ghost predicate LaunchesCovered(s: State, t: State) {
    t.control.series.Some? && |t.launches| - |s.launches| <= t.control.series.value.consumed
  }

  /** Launches since position `from` and pending attempts all belong to the newest epoch. */
  ghost predicate Tracks(s: State, from: nat) {
    && s.epochs != [] && from <= |s.launches| && s.control.series.Some?
    && (forall a :: a in s.launches[from..] ==> a in s.epochs[|s.epochs| - 1].attempts)
    && (forall p :: p in s.runners && s.runners[p].pc.Counted? ==> s.runners[p].pc.attempt in s.epochs[|s.epochs| - 1].attempts)
  }

  lemma EpochsGrow(s: State, e: Event)
    requires Enabled(s, e)
    ensures |Apply(s, e).epochs| >= |s.epochs|
  {
    if e.Count? {
      assert |CountIn(s.epochs, s.nextId, s.runners[e.process])| >= |s.epochs|;
    }
  }

  lemma {:induction false} RunEpochsGrow(s: State, events: seq<Event>)
    requires Possible(s, events)
    ensures |After(s, events).epochs| >= |s.epochs|
    decreases |events|
  {
    if events != [] {
      EpochsGrow(s, events[0]);
      RunEpochsGrow(Apply(s, events[0]), events[1..]);
    }
  }

  /** Only launching adds a launch, and within an epoch only counting adds to its attempts. */
  lemma OnlyLaunchingAddsLaunches(s: State, e: Event)
    requires Enabled(s, e) && !e.Count?
    ensures !e.Launch? ==> Apply(s, e).launches == s.launches
    ensures |Apply(s, e).epochs| == |s.epochs| ==> Apply(s, e).epochs == s.epochs
  {
  }

  lemma SeriesStays(s: State, e: Event)
    requires Enabled(s, e) && s.control.series.Some? && |Apply(s, e).epochs| == |s.epochs|
    ensures Apply(s, e).control.series.Some?
  {
  }

  lemma LatestAttemptsGrow(epochs: seq<Epoch>, id: AttemptId, r: Runner)
    requires epochs != [] && |CountIn(epochs, id, r)| == |epochs|
    ensures CountIn(epochs, id, r)[|epochs| - 1].attempts == epochs[|epochs| - 1].attempts + [id]
  {
  }

  lemma StepTracks(s: State, e: Event, from: nat)
    requires Tracks(s, from) && Enabled(s, e) && |Apply(s, e).epochs| == |s.epochs|
    ensures Tracks(Apply(s, e), from)
  {
    var t := Apply(s, e);
    SeriesStays(s, e);
    if e.Count? {
      var r := s.runners[e.process];
      assert t.launches == s.launches;
      if t.epochs != s.epochs {
        LatestAttemptsGrow(s.epochs, s.nextId, r);
      }
    } else {
      OnlyCountingAddsPending(s, e);
      OnlyLaunchingAddsLaunches(s, e);
      if e.Launch? {
        assert t.launches[from..] == s.launches[from..] + [s.runners[e.process].pc.attempt];
      }
    }
  }

  lemma {:induction false} RunTracks(s: State, events: seq<Event>, from: nat)
    requires Tracks(s, from) && Possible(s, events) && |After(s, events).epochs| == |s.epochs|
    ensures Tracks(After(s, events), from)
    decreases |events|
  {
    if events != [] {
      EpochsGrow(s, events[0]);
      RunEpochsGrow(Apply(s, events[0]), events[1..]);
      StepTracks(s, events[0], from);
      RunTracks(Apply(s, events[0]), events[1..], from);
    }
  }

  lemma TrackedLaunchesAreCovered(s: State, t: State)
    requires Inv(t) && |s.launches| <= |t.launches| && Tracks(t, |s.launches|)
    ensures LaunchesCovered(s, t)
  {
    var recent := t.launches[|s.launches|..];
    assert Distinct(recent);
    DistinctWithin(recent, t.epochs[|t.epochs| - 1].attempts);
  }

  lemma QuietResetIsSafe(s: State, events: seq<Event>)
    requires Inv(s) && s.control.series.Some? && !SomePending(s) && WithinEpoch(s, events)
    ensures LaunchesCovered(s, After(s, events))
  {
    RunTracks(s, events, |s.launches|);
    RunKeeps(s, events);
    TrackedLaunchesAreCovered(s, After(s, events));
  }

  lemma PendingLaunchIsNotCovered(s: State, p: nat)
    requires Inv(s) && s.control.series.Some? && s.control.series.value.consumed == 0
    requires p in s.runners && s.runners[p].pc.Counted?
    ensures WithinEpoch(s, [Launch(p)]) && !LaunchesCovered(s, After(s, [Launch(p)]))
  {
    var t := Apply(s, Launch(p));
    assert After(t, []) == t && Possible(t, []) && NeverBehind(t, []);
    assert [Launch(p)][1..] == [];
    assert After(s, [Launch(p)]) == t;
  }

  /**
   After a reset, the launches that follow stay within the consumed count on every run exactly when no runner held a
   counted attempt it had not launched.
   */
  lemma ResetIsSafeIffNothingPending(s: State)
    requires Inv(s) && s.control.series.Some? && s.control.series.value.consumed == 0
    ensures (forall events :: WithinEpoch(s, events) ==> LaunchesCovered(s, After(s, events))) <==> !SomePending(s)
  {
    if SomePending(s) {
      var p :| p in s.runners && s.runners[p].pc.Counted?;
      PendingLaunchIsNotCovered(s, p);
    } else {
      forall events | WithinEpoch(s, events) ensures LaunchesCovered(s, After(s, events)) {
        QuietResetIsSafe(s, events);
      }
    }
  }

  // ----- Concrete runs -----

  lemma Prepend(s: State, e: Event, rest: seq<Event>)
    requires Enabled(s, e) && Possible(Apply(s, e), rest)
    ensures Possible(s, [e] + rest) && After(s, [e] + rest) == After(Apply(s, e), rest)
    ensures NotBehind(s, e) && NeverBehind(Apply(s, e), rest) ==> NeverBehind(s, [e] + rest)
  {
    assert ([e] + rest)[1..] == rest;
  }

  lemma {:induction false} Join(s: State, first: seq<Event>, second: seq<Event>)
    requires Possible(s, first) && Possible(After(s, first), second)
    ensures Possible(s, first + second) && After(s, first + second) == After(After(s, first), second)
    ensures NeverBehind(s, first) && NeverBehind(After(s, first), second) ==> NeverBehind(s, first + second)
    decreases |first|
  {
    if first == [] {
      assert first + second == second;
    } else {
      assert (first + second)[1..] == first[1..] + second;
      Join(Apply(s, first[0]), first[1..], second);
    }
  }

  /** The stored series is open for another attempt. */
  predicate Open(s: State, p: nat) {
    && s.control.series.Some? && p !in s.runners && s.epochs != []
    && s.control.series.value.bound && s.control.series.value.stage.stateId == s.control.stateId
    && s.control.series.value.consumed < s.control.series.value.maxAttempts
    && (s.control.series.value.current.None? || s.control.series.value.current.value.status.Failed?)
  }

  function Arrived(s: State): Runner
    requires s.control.series.Some?
  {
    Runner(s.control.series.value.stage, s.control, s.control.series.value, false, false, Looping)
  }

  /** A runner of `p` that starts from the stored control state and reaches the retry loop. */
  function Approach(s: State, p: nat): seq<Event>
    requires s.control.series.Some?
  {
    [Start(p, s.control, s.control.series.value.stage, s.control.series.value.maxAttempts, 0)]
    + ([Bind(p)] + ([Resolve(p, false)] + ([Resume(p)] + [])))
  }

  lemma ApproachArrives(s: State, p: nat)
    requires Open(s, p)
    ensures Possible(s, Approach(s, p)) && NeverBehind(s, Approach(s, p))
    ensures After(s, Approach(s, p)) == Put(s, p, Arrived(s))
  {
    var r := Arrived(s);
    var entering, resolving, resuming := Put(s, p, r.(pc := Entering)), Put(s, p, r.(pc := Resolving)), Put(s, p, r.(pc := Resuming));
    assert Put(entering, p, r.(pc := Resolving)) == resolving;
    assert Put(resolving, p, r.(pc := Resuming)) == resuming;
    assert Put(resuming, p, r) == Put(s, p, r);
    Prepend(resuming, Resume(p), []);
    Prepend(resolving, Resolve(p, false), [Resume(p)] + []);
    Prepend(entering, Bind(p), [Resolve(p, false)] + ([Resume(p)] + []));
    Prepend(s, Start(p, s.control, s.control.series.value.stage, s.control.series.value.maxAttempts, 0),
            [Bind(p)] + ([Resolve(p, false)] + ([Resume(p)] + [])));
  }

  /** What counting from the retry loop leaves. */
  lemma ArrivedCounts(s: State, p: nat)
    requires Open(s, p)
    ensures var a := Put(s, p, Arrived(s));
            && Enabled(a, Count(p))
            && var t := Apply(a, Count(p));
               && p in t.runners && t.runners[p].pc == Counted(s.nextId) && t.launches == s.launches
               && |t.epochs| == |s.epochs| && t.runners.Keys == s.runners.Keys + {p}
               && t.control.stateId == s.control.stateId && t.control.series.Some?
               && t.control.series.value.stage == s.control.series.value.stage
               && t.control.series.value.bound
               && t.control.series.value.consumed == s.control.series.value.consumed + 1
               && t.control.series.value.maxAttempts == s.control.series.value.maxAttempts
  {
  }

  function Departure(p: nat): seq<Event> {
    [Launch(p)] + ([Quit(p)] + [])
  }

  lemma Departs(s: State, p: nat)
    requires p in s.runners && s.runners[p].pc.Counted?
    ensures Possible(s, Departure(p)) && NeverBehind(s, Departure(p))
    ensures After(s, Departure(p)) == Leave(s.(launches := s.launches + [s.runners[p].pc.attempt]), p)
  {
    var t := Apply(s, Launch(p));
    assert t.runners - {p} == s.runners - {p};
    Prepend(t, Quit(p), []);
    Prepend(s, Launch(p), [Quit(p)] + []);
  }

  lemma StoringKeepsRunners(s: State, between: Event)
    requires between.Other? || between.Recover?
    ensures Apply(s, between).runners == s.runners && Apply(s, between).launches == s.launches
  {
  }

  /** Counts and launches, with something stored in between, and goes away. */
  lemma CountAndLaunch(s: State, p: nat, between: Event)
    requires Open(s, p) && (between.Other? || between.Recover?)
    ensures var events := Approach(s, p) + ([Count(p)] + ([between] + Departure(p)));
            && Possible(s, events)
            && After(s, events).launches == s.launches + [s.nextId]
            && p !in After(s, events).runners
            && (NotBehind(Apply(Put(s, p, Arrived(s)), Count(p)), between) ==> NeverBehind(s, events))
            && (After(s, events).control, After(s, events).epochs)
               == var u := Apply(Apply(Put(s, p, Arrived(s)), Count(p)), between); (u.control, u.epochs)
  {
    ApproachArrives(s, p);
    ArrivedCounts(s, p);
    var a := Put(s, p, Arrived(s));
    var t := Apply(a, Count(p));
    var u := Apply(t, between);
    StoringKeepsRunners(t, between);
    Departs(u, p);
    Prepend(t, between, Departure(p));
    Prepend(a, Count(p), [between] + Departure(p));
    Join(s, Approach(s, p), [Count(p)] + ([between] + Departure(p)));
  }

  /** The claim without its condition fails: an attempt is counted, the budget is reset, the attempt is launched. */
  lemma ResetCanLeaveALaunchUncounted(s: State, p: nat)
    requires Open(s, p)
    ensures exists events ::
              && Possible(s, events) && NeverBehind(s, events)
              && |After(s, events).launches| == |s.launches| + 1
              && After(s, events).control.series.Some?
              && After(s, events).control.series.value.consumed == 0
  {
    ArrivedCounts(s, p);
    var reset := Other(Transition(true, false, false), s.control.stateId);
    CountAndLaunch(s, p, reset);
    var events := Approach(s, p) + ([Count(p)] + ([reset] + Departure(p)));
    assert Possible(s, events);
  }
}
