/**
 Recoveries that store a control state read before later writes (src/runtime/reconcile.ts:424-425,
 src/runtime/control-state.ts:87-113). The budget survives one on every later run exactly when its count covers what the
 newest epoch has launched, or has counted and still holds for launch.
 */
module AttemptRecoveries {
  import opened Basics
  import opened Execution
  import opened Attempts
  import opened AttemptBudget
  import opened AttemptResets

  function Newest(s: State): Epoch
    requires s.epochs != []
  {
    s.epochs[|s.epochs| - 1]
  }

  /** The runners that hold a counted attempt they have not launched. */
  function Holders(s: State): set<nat> {
    set p | p in s.runners && s.runners[p].pc.Counted?
  }

  /** What the newest epoch launched, or counted and still holds for launch. */
  function Spent(s: State): set<AttemptId>
    requires s.epochs != []
  {
    set a | a in Newest(s).attempts && (a in s.launches || exists p :: p in Holders(s) && s.runners[p].pc.attempt == a)
  }

  ghost predicate Covered(s: State) {
    s.epochs != [] && (s.control.series.Some? ==> Newest(s).base + |Spent(s)| <= s.control.series.value.consumed)
  }

  /** The launches of the newest epoch are within the stored count. */
  ghost predicate WithinBudget(s: State) {
    && s.epochs != []
    && (s.control.series.Some? ==> Newest(s).base + |LaunchesIn(s.launches, Newest(s))| <= s.control.series.value.consumed)
  }

  lemma LaunchesAreSpent(s: State)
    requires Sound(s)
    ensures |LaunchesIn(s.launches, Newest(s))| <= |Spent(s)|
    ensures Holders(s) == {} ==> |LaunchesIn(s.launches, Newest(s))| == |Spent(s)|
  {
    var launched := LaunchesIn(s.launches, Newest(s));
    FilterKeepsDistinct(s.launches, (a: AttemptId) => a in Newest(s).attempts);
    DistinctCardinality(launched);
    SubsetCardinality(ToSet(launched), Spent(s));
    if Holders(s) == {} { assert Spent(s) == ToSet(launched); }
  }

  lemma LaunchesAddNothing(s: State, e: Event)
    requires s.epochs != [] && Enabled(s, e) && !e.Count? && |Apply(s, e).epochs| == |s.epochs|
    ensures Apply(s, e).epochs == s.epochs && Spent(Apply(s, e)) <= Spent(s)
  {
    OnlyCountingAddsPending(s, e);
    OnlyLaunchingAddsLaunches(s, e);
    var t := Apply(s, e);
    forall a | a in Spent(t) ensures a in Spent(s) {
      if a in t.launches {
        if a !in s.launches { assert e.Launch? && e.process in Holders(s) && s.runners[e.process].pc.attempt == a; }
      } else {
        var p :| p in Holders(t) && t.runners[p].pc.attempt == a;
        assert p in Holders(s);
      }
    }
  }

  lemma CountingAddsOne(s: State, p: nat)
    requires Sound(s) && Enabled(s, Count(p)) && |Apply(s, Count(p)).epochs| == |s.epochs|
    ensures var t := Apply(s, Count(p));
            || (t.control == s.control && t.epochs == s.epochs && Spent(t) <= Spent(s))
            || (&& s.control.series.Some? && t.control.series.Some?
                && t.control.series.value.consumed == s.control.series.value.consumed + 1
                && Newest(t).base == Newest(s).base && Spent(t) <= Spent(s) + {s.nextId})
  {
    CountingIsStored(s, p);
    var t := Apply(s, Count(p));
    assert RunnerOk(s, s.runners[p]);
    forall a | a in Spent(t) && a != s.nextId ensures a in Spent(s) {
      if a !in t.launches {
        var q :| q in Holders(t) && t.runners[q].pc.attempt == a;
        assert q in Holders(s);
      }
    }
  }

  lemma CountingKeepsCovered(s: State, p: nat)
    requires Sound(s) && Covered(s) && s.control.series.Some? && Enabled(s, Count(p)) && |Apply(s, Count(p)).epochs| == |s.epochs|
    ensures Covered(Apply(s, Count(p)))
  {
    CountingAddsOne(s, p);
    var t := Apply(s, Count(p));
    SubsetCardinality(Spent(t), if t.control == s.control then Spent(s) else Spent(s) + {s.nextId});
  }

  /** Within an epoch no step but counting moves the stored count, and recoveries only upwards. */
  lemma CountNeverFalls(s: State, e: Event)
    requires RunnersOk(s) && s.control.series.Some? && Enabled(s, e) && NotBehind(s, e) && !e.Count?
    requires |Apply(s, e).epochs| == |s.epochs| && Apply(s, e).control.series.Some?
    ensures Apply(s, e).control.series.value.consumed >= s.control.series.value.consumed
  {
    if !e.Other? && !e.Recover? { RunnersKeepTheBudget(s, e); }
  }

  /** Within an epoch, what is spent never outgrows the stored count. */
  lemma StepKeepsCovered(s: State, e: Event)
    requires Sound(s) && Covered(s) && s.control.series.Some? && Enabled(s, e) && NotBehind(s, e)
    requires |Apply(s, e).epochs| == |s.epochs|
    ensures Covered(Apply(s, e)) && Apply(s, e).control.series.Some?
  {
    SeriesStays(s, e);
    if e.Count? {
      CountingKeepsCovered(s, e.process);
    } else {
      LaunchesAddNothing(s, e);
      SubsetCardinality(Spent(Apply(s, e)), Spent(s));
      CountNeverFalls(s, e);
    }
  }

  lemma {:induction false} RunKeepsCovered(s: State, events: seq<Event>)
    requires Sound(s) && Covered(s) && s.control.series.Some? && WithinEpoch(s, events)
    ensures Sound(After(s, events)) && Covered(After(s, events))
    decreases |events|
  {
    if events != [] {
      EpochsGrow(s, events[0]);
      RunEpochsGrow(Apply(s, events[0]), events[1..]);
      StepIsSound(s, events[0]);
      StepKeepsCovered(s, events[0]);
      RunKeepsCovered(Apply(s, events[0]), events[1..]);
    }
  }

  /** Every attempt held for launch is launched. */
  lemma {:induction false} LaunchAll(s: State) returns (events: seq<Event>)
    requires Sound(s)
    ensures WithinEpoch(s, events)
    ensures var t := After(s, events);
            && Sound(t) && t.control == s.control && t.epochs == s.epochs && Holders(t) == {} && Spent(t) == Spent(s)
    decreases Holders(s)
  {
    events := [];
    if Holders(s) != {} {
      var p :| p in Holders(s);
      var t := Apply(s, Launch(p));
      StepIsSound(s, Launch(p));
      assert Holders(t) == Holders(s) - {p};
      LaunchKeepsSpent(s, p);
      var rest := LaunchAll(t);
      Prepend(s, Launch(p), rest);
      events := [Launch(p)] + rest;
    }
  }

  lemma LaunchKeepsSpent(s: State, p: nat)
    requires s.epochs != [] && p in Holders(s)
    ensures Spent(Apply(s, Launch(p))) == Spent(s)
  {
    var t := Apply(s, Launch(p));
    LaunchesAddNothing(s, Launch(p));
    forall a | a in Spent(s) ensures a in Spent(t) {
      if a !in t.launches {
        var q :| q in Holders(s) && s.runners[q].pc.attempt == a;
        assert q in Holders(t) && t.runners[q].pc.attempt == a;
      }
    }
  }

  /**
   From every sound state, however its stored count came about, the launches of the newest epoch stay within the stored
   count on every run of that epoch, later recoveries not behind, exactly when the count covers what the epoch spent.
   */
  lemma BudgetHoldsIffCovered(s: State)
    requires Sound(s) && s.control.series.Some?
    ensures (forall events :: WithinEpoch(s, events) ==> WithinBudget(After(s, events))) <==> Covered(s)
  {
    if Covered(s) {
      forall events | WithinEpoch(s, events) ensures WithinBudget(After(s, events)) {
        RunKeepsCovered(s, events);
        LaunchesAreSpent(After(s, events));
      }
    } else {
      var events := LaunchAll(s);
      LaunchesAreSpent(After(s, events));
      assert !WithinBudget(After(s, events));
    }
  }

  /**
   A recovery may store a control state that was read earlier. The budget of the epoch survives it on every run that
   follows exactly when the replacement's count covers what the epoch spent; a count that is not behind the stored one does.
   */
  lemma RecoveryKeepsBudgetIffSpentIsCovered(s: State, series: Series, stateId: string)
    requires Inv(s) && s.control.series.Some?
    ensures var t := Apply(s, Recover(Some(series), stateId));
            (forall events :: WithinEpoch(t, events) ==> WithinBudget(After(t, events)))
            <==> Newest(s).base + |Spent(s)| <= series.consumed
    ensures series.consumed >= s.control.series.value.consumed ==> Newest(s).base + |Spent(s)| <= series.consumed
  {
    var t := Apply(s, Recover(Some(series), stateId));
    StepIsSound(s, Recover(Some(series), stateId));
    BudgetHoldsIffCovered(t);
    assert Spent(t) == Spent(s);
    SubsetCardinality(Spent(s), ToSet(Newest(s).attempts));
    CardinalityBound(Newest(s).attempts);
  }

  // ----- Concrete runs -----

  /** A launch behind which the control state read before it is stored again. */
  lemma LaunchAndUndo(s: State, p: nat) returns (events: seq<Event>)
    requires Open(s, p)
    ensures Possible(s, events)
    ensures var t := After(s, events);
            && Open(t, p) && t.control.series == s.control.series
            && |t.epochs| == |s.epochs| && t.launches == s.launches + [s.nextId]
  {
    var stale := Recover(s.control.series, s.control.stateId);
    ArrivedCounts(s, p);
    CountAndLaunch(s, p, stale);
    events := Approach(s, p) + ([Count(p)] + ([stale] + Departure(p)));
    assert After(s, events).control.series == s.control.series;
  }

  /** However few attempts are left, stale recoveries let any number be launched in one series of unchanged limit. */
  lemma {:induction false} StaleRecoveriesAllowAnyNumberOfLaunches(s: State, p: nat, n: nat) returns (events: seq<Event>)
    requires Open(s, p)
    ensures Possible(s, events)
    ensures var t := After(s, events);
            && Open(t, p) && t.control.series == s.control.series
            && |t.epochs| == |s.epochs| && |t.launches| == |s.launches| + n
    decreases n
  {
    if n == 0 {
      events := [];
    } else {
      var first := LaunchAndUndo(s, p);
      var rest := StaleRecoveriesAllowAnyNumberOfLaunches(After(s, first), p, n - 1);
      Join(s, first, rest);
      events := first + rest;
    }
  }
}
