/**
 What the counting write buys: in every interleaving and after every crash, each harness launch was counted by a
 successful write of its own, no attempt is launched twice, and a budget epoch never sees more launches than the stored
 consumed count, which never exceeds the limit (src/runtime/attempt-runner.ts:349-363, 452).
 */
module AttemptBudget {
  import opened Basics
  import opened Execution
  import opened Attempts

  ghost predicate WasCounted(epochs: seq<Epoch>, a: AttemptId) {
    exists i :: 0 <= i < |epochs| && a in epochs[i].attempts
  }

  ghost predicate LaunchesOk(s: State) {
    && Distinct(s.launches)
    && forall a :: a in s.launches ==> WasCounted(s.epochs, a) && a < s.nextId
  }

  ghost predicate RunnerOk(s: State, r: Runner) {
    && (r.unsaved ==> r.series.consumed == 0 && r.series.current.None? && r.series.bound
                      && (r.pc.Entering? || r.pc.Resolving? || r.pc.Resuming? || r.pc.Looping?))
    && (!r.unsaved ==> r.control.series == Some(r.series))
    && (r.pc.Counted? ==> WasCounted(s.epochs, r.pc.attempt) && r.pc.attempt !in s.launches && r.pc.attempt < s.nextId)
  }

  ghost predicate RunnersOk(s: State) {
    && (forall p :: p in s.runners ==> RunnerOk(s, s.runners[p]))
    && (forall p, q :: p in s.runners && q in s.runners && s.runners[p].pc.Counted? && s.runners[p].pc == s.runners[q].pc ==> p == q)
  }

  /** Who counted and launched what; this holds whatever recoveries store. */
  ghost predicate Sound(s: State) {
    s.epochs != [] && LaunchesOk(s) && RunnersOk(s)
  }

  /** The newest epoch is covered by the stored series. */
  ghost predicate Agrees(e: Epoch, series: Option<Series>) {
    if series.Some? then e.base + |e.attempts| <= series.value.consumed <= series.value.maxAttempts == e.limit
    else e.attempts == []
  }

  /** No epoch counted more than its limit, and the newest no more than is stored. */
  ghost predicate Ledger(epochs: seq<Epoch>, series: Option<Series>) {
    && epochs != []
    && (forall i :: 0 <= i < |epochs| ==> epochs[i].base + |epochs[i].attempts| <= epochs[i].limit)
    && Agrees(epochs[|epochs| - 1], series)
  }

  ghost predicate Inv(s: State) {
    Sound(s) && Ledger(s.epochs, s.control.series)
  }

  /** A controller that finds this control state and knows of no attempts. */
  function Opening(control: Control): State {
    var base := if control.series.Some? then control.series.value.consumed else 0;
    var limit := if control.series.Some? then control.series.value.maxAttempts else 0;
    State(control, map[], 0, [], [Epoch(base, [], limit)])
  }

  lemma OpeningHolds(control: Control)
    requires control.series.Some? ==> control.series.value.consumed <= control.series.value.maxAttempts
    ensures Inv(Opening(control))
  {
  }

  // ----- Every step is sound -----

  /** More counted attempts, a later id and any other control state leave launches and runners as they should be. */
  lemma GrowthKeeps(s: State, t: State)
    requires Sound(s) && t.epochs != [] && t.launches == s.launches && t.runners == s.runners && t.nextId >= s.nextId
    requires forall a :: WasCounted(s.epochs, a) ==> WasCounted(t.epochs, a)
    ensures Sound(t)
  {
    forall q | q in t.runners ensures RunnerOk(t, t.runners[q]) {
      assert RunnerOk(s, s.runners[q]);
    }
  }

  lemma LeaveKeeps(s: State, p: nat)
    requires Sound(s)
    ensures Sound(Leave(s, p))
  {
    var t := Leave(s, p);
    forall q | q in t.runners ensures RunnerOk(t, t.runners[q]) {
      assert RunnerOk(s, s.runners[q]);
    }
  }

  /** Replacing or adding a runner that is fine keeps the others fine. */
  lemma PutKeeps(s: State, p: nat, r: Runner)
    requires Sound(s) && RunnerOk(s, r)
    requires r.pc.Counted? ==> forall q :: q in s.runners && q != p ==> s.runners[q].pc != r.pc
    ensures Sound(Put(s, p, r))
  {
    var t := Put(s, p, r);
    forall q | q in t.runners ensures RunnerOk(t, t.runners[q]) {
      if q != p { assert RunnerOk(s, s.runners[q]); }
    }
  }

  /** The state a persisted write leaves, but for the runner that made it. */
  lemma PersistKeeps(s: State, r: Runner, series: Series, stateId: string, resume: Option<string>)
    requires Sound(s)
    ensures var written := PersistAt(s, r, series, stateId, resume);
            written.Some? ==>
              && Sound(written.value.0) && written.value.0.runners == s.runners
              && written.value.1.control.series == Some(series) && written.value.1.series == series
              && !written.value.1.unsaved && written.value.1.pc == r.pc
  {
    var written := PersistAt(s, r, series, stateId, resume);
    if written.Some? { GrowthKeeps(s, written.value.0); }
  }

  lemma PersistThenKeeps(s: State, p: nat, r: Runner, series: Series, pc: Pc)
    requires Sound(s) && !pc.Counted?
    ensures Sound(PersistThen(s, p, r, series, pc))
  {
    PersistKeeps(s, r, series, r.control.stateId, r.control.resumeStateId);
    var written := Persist(s, r, series);
    if written.None? {
      LeaveKeeps(s, p);
    } else {
      PutKeeps(written.value.0, p, written.value.1.(pc := pc));
    }
  }

  lemma PersistBlockedKeeps(s: State, p: nat, r: Runner, series: Series)
    requires Sound(s)
    ensures Sound(PersistBlocked(s, p, r, series))
  {
    PersistKeeps(s, r, MarkFailed(series), "blocked", Some(r.stage.stateId));
    var written := PersistAt(s, r, MarkFailed(series), "blocked", Some(r.stage.stateId));
    LeaveKeeps(if written.None? then s else written.value.0, p);
  }

  lemma CountInGrows(epochs: seq<Epoch>, id: AttemptId, r: Runner)
    requires epochs != []
    ensures CountIn(epochs, id, r) != [] && WasCounted(CountIn(epochs, id, r), id)
    ensures forall a :: WasCounted(epochs, a) ==> WasCounted(CountIn(epochs, id, r), a)
  {
    var after := CountIn(epochs, id, r);
    assert id in after[|after| - 1].attempts;
    forall a | WasCounted(epochs, a) ensures WasCounted(after, a) {
      var i :| 0 <= i < |epochs| && a in epochs[i].attempts;
      assert a in after[i].attempts;
    }
  }

  /** The counting write gives the runner a number nobody had. */
  lemma FreshNumber(s: State, p: nat, t: State, r: Runner)
    requires Sound(s) && Sound(t) && t.runners == s.runners && t.launches == s.launches && t.nextId == s.nextId + 1
    requires r.pc == Pc.Counted(s.nextId) && !r.unsaved && r.control.series == Some(r.series) && WasCounted(t.epochs, s.nextId)
    ensures Sound(Put(t, p, r))
  {
    forall q | q in s.runners ensures s.runners[q].pc != r.pc {
      assert RunnerOk(s, s.runners[q]);
    }
    assert s.nextId !in s.launches;
    PutKeeps(t, p, r);
  }

  lemma CountKeeps(s: State, p: nat, r: Runner)
    requires Sound(s)
    ensures Sound(CountStep(s, p, r))
  {
    var later := s.(nextId := s.nextId + 1);
    GrowthKeeps(s, later);
    LeaveKeeps(s, p);
    LeaveKeeps(later, p);
    if !r.cancelled && r.series.consumed < r.series.maxAttempts && s.control == r.control {
      var id := s.nextId;
      var counted := r.series.(consumed := r.series.consumed + 1, current := Some(Attempt(id, Started)));
      var written := Persist(later, r, counted).value;
      var t := written.0.(epochs := CountIn(s.epochs, id, r));
      CountInGrows(s.epochs, id, r);
      GrowthKeeps(s, t);
      FreshNumber(s, p, t, written.1.(pc := Pc.Counted(id)));
    }
  }

  lemma LaunchKeeps(s: State, p: nat)
    requires Sound(s) && p in s.runners && s.runners[p].pc.Counted?
    ensures Sound(LaunchStep(s, p, s.runners[p]))
  {
    var r := s.runners[p];
    assert RunnerOk(s, r);
    var t := LaunchStep(s, p, r);
    forall q | q in t.runners ensures RunnerOk(t, t.runners[q]) {
      assert RunnerOk(s, s.runners[q]);
    }
  }

  /** Another writer replaces the control state and may begin an epoch. */
  lemma StoredByOthersKeeps(s: State, e: Event)
    requires Sound(s) && (e.Other? || e.Recover?)
    ensures Sound(Apply(s, e))
  {
    var t := Apply(s, e);
    forall a | WasCounted(s.epochs, a) ensures WasCounted(t.epochs, a) {
      var i :| 0 <= i < |s.epochs| && a in s.epochs[i].attempts;
      assert a in t.epochs[i].attempts;
    }
    GrowthKeeps(s, t);
  }

  lemma WritingStepSound(s: State, e: Event)
    requires Sound(s) && Enabled(s, e) && (e.Bind? || e.Resume? || e.Finish? || e.Fail?)
    ensures Sound(Apply(s, e))
  {
    var r := s.runners[e.process];
    assert RunnerOk(s, r);
    match e
    case Bind(p) => if r.series.bound { PutKeeps(s, p, r.(pc := Resolving)); } else { PersistThenKeeps(s, p, r, r.series.(bound := true), Resolving); }
    case Resume(p) =>
      PersistBlockedKeeps(s, p, r, MarkFailed(r.series));
      PersistThenKeeps(s, p, r, MarkFailed(r.series), Looping);
      PersistBlockedKeeps(s, p, r, r.series);
      PutKeeps(s, p, r.(pc := Looping));
    case Fail(p, retryable) =>
      PersistBlockedKeeps(s, p, r, MarkFailed(r.series));
      PersistThenKeeps(s, p, r, MarkFailed(r.series), if r.pc.Finishing? then Resuming else Looping);
    case Finish(p) =>
      var done := r.series.(current := Some(Attempt(r.pc.attempt, Succeeded)));
      PersistKeeps(s, r, done, r.control.stateId, r.control.resumeStateId);
      var written := Persist(s, r, done);
      LeaveKeeps(if written.None? then s else written.value.0, p);
  }

  lemma StepIsSound(s: State, e: Event)
    requires Sound(s) && Enabled(s, e)
    ensures Sound(Apply(s, e))
  {
    if e.Start? {
      var entry := Enter(e.control, e.stage, e.maxAttempts, e.id);
      if entry.Entered? { PutKeeps(s, e.process, entry.runner); }
    } else if e.Other? || e.Recover? {
      StoredByOthersKeeps(s, e);
    } else {
      var p := e.process;
      var r := s.runners[p];
      assert RunnerOk(s, r);
      match e
      case Cancel(_) => PutKeeps(s, p, r.(cancelled := true));
      case Resolve(_, retained) =>
        PutKeeps(s, p, r.(pc := if InFlight(r.series) && retained then Finishing(r.series.current.value.id) else Resuming));
      case Count(_) => CountKeeps(s, p, r);
      case Launch(_) => LaunchKeeps(s, p);
      case Ended(_) => PutKeeps(s, p, r.(pc := Finishing(r.pc.attempt)));
      case Undying(_) => PutKeeps(s, p, r.(pc := Unterminated));
      case Quit(_) => LeaveKeeps(s, p);
      case _ => WritingStepSound(s, e);
    }
  }

  // ----- Every step keeps the ledger -----

  predicate SameBudget(a: Option<Series>, b: Option<Series>) {
    if a.Some? && b.Some? then a.value.consumed == b.value.consumed && a.value.maxAttempts == b.value.maxAttempts else a.None? && b.None?
  }

  /** Apart from counting, what a runner stores leaves the budget as it was. */
  lemma RunnersKeepTheBudget(s: State, e: Event)
    requires RunnersOk(s) && Enabled(s, e) && !e.Count? && !e.Other? && !e.Recover?
    ensures Apply(s, e).epochs == s.epochs && SameBudget(s.control.series, Apply(s, e).control.series)
  {
    if !e.Start? { assert RunnerOk(s, s.runners[e.process]); }
  }

  /** What the counting step does to the budget: nothing, a new epoch of one, or one more in the newest and in the store. */
  lemma CountingIsStored(s: State, p: nat)
    requires RunnersOk(s) && Enabled(s, Count(p))
    ensures var t := Apply(s, Count(p)); var r := s.runners[p];
            && t.launches == s.launches
            && (|| (t.epochs == s.epochs && t.control == s.control && t.runners == s.runners - {p})
                || (&& t.epochs == CountIn(s.epochs, s.nextId, r) && t.runners.Keys == s.runners.Keys + {p}
                    && s.control == r.control && r.series.consumed < r.series.maxAttempts
                    && t.control.series == Some(r.series.(consumed := r.series.consumed + 1, current := Some(Attempt(s.nextId, Started))))
                    && t.runners == s.runners[p := t.runners[p]] && t.runners[p].pc == Pc.Counted(s.nextId)))
  {
  }

  lemma CountInAgrees(epochs: seq<Epoch>, id: AttemptId, s: State, r: Runner)
    requires Ledger(epochs, s.control.series) && RunnerOk(s, r) && r.series.consumed < r.series.maxAttempts && s.control == r.control
    ensures Ledger(CountIn(epochs, id, r), Some(r.series.(consumed := r.series.consumed + 1, current := Some(Attempt(id, Started)))))
  {
  }

  lemma StepKeepsLedger(s: State, e: Event)
    requires Inv(s) && Enabled(s, e) && NotBehind(s, e)
    ensures Ledger(Apply(s, e).epochs, Apply(s, e).control.series)
  {
    if e.Count? {
      CountingIsStored(s, e.process);
      if s.control == s.runners[e.process].control && s.runners[e.process].series.consumed < s.runners[e.process].series.maxAttempts {
        CountInAgrees(s.epochs, s.nextId, s, s.runners[e.process]);
      }
    } else if !e.Other? && !e.Recover? {
      RunnersKeepTheBudget(s, e);
    }
  }

  lemma StepKeeps(s: State, e: Event)
    requires Inv(s) && Enabled(s, e) && NotBehind(s, e)
    ensures Inv(Apply(s, e))
  {
    StepIsSound(s, e);
    StepKeepsLedger(s, e);
  }

  lemma {:induction false} RunKeeps(s: State, events: seq<Event>)
    requires Inv(s) && Possible(s, events) && NeverBehind(s, events)
    ensures Inv(After(s, events))
    decreases |events|
  {
    if events != [] {
      StepKeeps(s, events[0]);
      RunKeeps(Apply(s, events[0]), events[1..]);
    }
  }

  // ----- What follows for every run -----

  /** The launches of one epoch. */
  function LaunchesIn(launches: seq<AttemptId>, epoch: Epoch): seq<AttemptId> {
    Filter((a: AttemptId) => a in epoch.attempts, launches)
  }

  lemma {:induction false} FilterKeepsDistinct(launches: seq<AttemptId>, keep: AttemptId -> bool)
    requires Distinct(launches)
    ensures Distinct(Filter(keep, launches))
  {
    if launches != [] {
      FilterKeepsDistinct(launches[1..], keep);
      assert launches[0] !in launches[1..];
    }
  }

  lemma DistinctWithin(xs: seq<AttemptId>, ys: seq<AttemptId>)
    requires Distinct(xs) && forall x :: x in xs ==> x in ys
    ensures |xs| <= |ys|
  {
    DistinctCardinality(xs);
    CardinalityBound(ys);
    SubsetCardinality(ToSet(xs), ToSet(ys));
  }

  lemma LaunchesWithinEpoch(s: State, i: nat)
    requires Inv(s) && i < |s.epochs|
    ensures |LaunchesIn(s.launches, s.epochs[i])| <= |s.epochs[i].attempts|
  {
    FilterKeepsDistinct(s.launches, (a: AttemptId) => a in s.epochs[i].attempts);
    DistinctWithin(LaunchesIn(s.launches, s.epochs[i]), s.epochs[i].attempts);
  }

  /**
   For every sequence of starts, crashes, races and other writes: each epoch saw at most as many launches as its limit
   allows on top of what it began with; in the newest epoch they are also within the stored consumed count; and every
   launch was counted, none twice.
   */
  lemma LaunchesStayWithinBudget(control: Control, events: seq<Event>)
    requires control.series.Some? ==> control.series.value.consumed <= control.series.value.maxAttempts
    requires Possible(Opening(control), events) && NeverBehind(Opening(control), events)
    ensures var s := After(Opening(control), events);
            && s.epochs != []
            && (forall i :: 0 <= i < |s.epochs| ==>
                  s.epochs[i].base + |LaunchesIn(s.launches, s.epochs[i])| <= s.epochs[i].limit)
            && (s.control.series.Some? ==>
                  && s.epochs[|s.epochs| - 1].base + |LaunchesIn(s.launches, s.epochs[|s.epochs| - 1])| <= s.control.series.value.consumed
                  && s.control.series.value.consumed <= s.control.series.value.maxAttempts)
            && Distinct(s.launches)
            && (forall a :: a in s.launches ==> WasCounted(s.epochs, a))
  {
    OpeningHolds(control);
    RunKeeps(Opening(control), events);
    var s := After(Opening(control), events);
    forall i | 0 <= i < |s.epochs| ensures |LaunchesIn(s.launches, s.epochs[i])| <= |s.epochs[i].attempts| {
      LaunchesWithinEpoch(s, i);
    }
  }

  /** A start takes a stored series of its own stage up where it stands; only another stage gets a budget of its own. */
  lemma StartContinuesItsSeries(control: Control, stage: Stage, maxAttempts: nat, id: nat)
    ensures var entry := Enter(control, stage, maxAttempts, id);
            && (stage.stateId != control.stateId ==> entry.Refused?)
            && (entry.Entered? ==> entry.runner.control == control && entry.runner.stage == stage && !entry.runner.cancelled && entry.runner.pc.Entering?)
            && (Matches(control.series, stage) && stage.stateId == control.stateId ==>
                  var series := control.series.value;
                  && (entry.Refused? <==> !series.bound && series.maxAttempts != maxAttempts)
                  && (entry.Entered? ==> entry.runner.series == series && !entry.runner.unsaved)
                  && (entry.Settled? ==> series.current.Some? && (series.current.value.status.Succeeded? || series.current.value.status.Cancelled?))
                  && (series.current.Some? && (series.current.value.status.Succeeded? || series.current.value.status.Cancelled?) ==> !entry.Entered?))
            && (!Matches(control.series, stage) && stage.stateId == control.stateId ==>
                  && entry.Entered? && entry.runner.unsaved
                  && entry.runner.series.consumed == 0 && entry.runner.series.current.None? && entry.runner.series.maxAttempts == maxAttempts)
  {
  }

  /** An attempt an earlier run left unfinished is stored as failed before another is made; it stays counted, and blocks the flow when it was the last. */
  lemma UnfinishedAttemptIsFailed(s: State, p: nat)
    requires Sound(s) && Enabled(s, Resume(p)) && InFlight(s.runners[p].series) && s.runners[p].control == s.control
    ensures var t := Apply(s, Resume(p)); var series := s.runners[p].series;
            && t.control.sequence == s.control.sequence + 1
            && t.control.series == Some(series.(current := Some(Attempt(series.current.value.id, Failed))))
            && (if series.consumed >= series.maxAttempts
                then t.control.stateId == "blocked" && t.control.resumeStateId == Some(s.runners[p].stage.stateId) && p !in t.runners
                else t.control.stateId == s.control.stateId && p in t.runners && t.runners[p].pc.Looping? && t.runners[p].control == t.control)
  {
    assert RunnerOk(s, s.runners[p]);
  }

  /** When the harness is launched, the launch was counted earlier and has not happened before. */
  lemma LaunchFollowsItsCount(s: State, p: nat)
    requires Inv(s) && Enabled(s, Launch(p))
    ensures WasCounted(s.epochs, s.runners[p].pc.attempt) && s.runners[p].pc.attempt !in s.launches
    ensures Apply(s, Launch(p)).launches == s.launches + [s.runners[p].pc.attempt]
  {
    assert RunnerOk(s, s.runners[p]);
  }

  /** Other than by counting, no step adds a pending attempt. */
  lemma OnlyCountingAddsPending(s: State, e: Event)
    requires Enabled(s, e) && !e.Count?
    ensures forall p :: p in Apply(s, e).runners && Apply(s, e).runners[p].pc.Counted? ==>
              p in s.runners && s.runners[p].pc == Apply(s, e).runners[p].pc
  {
  }

  /** A runner only comes to hold a counted attempt through its own accepted write of the successor control state. */
  lemma CountedByOwnWrite(s: State, e: Event, p: nat)
    requires Enabled(s, e) && p in Apply(s, e).runners && Apply(s, e).runners[p].pc.Counted?
    requires p !in s.runners || s.runners[p].pc != Apply(s, e).runners[p].pc
    ensures e == Count(p) && s.runners[p].control == s.control
    ensures var t := Apply(s, e);
            && t.control.sequence == s.control.sequence + 1
            && t.control.series.Some? && t.control.series.value.consumed == s.runners[p].series.consumed + 1
            && t.control.series.value.current == Some(Attempt(t.runners[p].pc.attempt, Started))
  {
    if !e.Count? { OnlyCountingAddsPending(s, e); }
  }
}
