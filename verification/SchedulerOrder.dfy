/**
 In which order the scheduler claims what is queued (`pump`, src/runtime/scheduler.ts:95-104): the oldest entry first, among
 those whose key has nothing before them, and as many as the limit allows.
 */
module SchedulerOrder {
  import opened Basics
  import opened SchedulerModel
  import opened SchedulerInvariant

  /** The queue holds entries in the order they were created. */
  ghost predicate InOrder<T>(s: State<T>) {
    && (forall i, j :: 0 <= i < j < |s.pending| ==> s.pending[i] < s.pending[j])
    && (forall i :: 0 <= i < |s.pending| ==> s.pending[i] < |s.entries|)
  }

  lemma WithoutKeepsOrder(xs: seq<Id>, e: Id)
    requires forall i, j :: 0 <= i < j < |xs| ==> xs[i] < xs[j]
    ensures var ys := Without(xs, e);
            && (forall i, j :: 0 <= i < j < |ys| ==> ys[i] < ys[j])
            && (forall y :: y in ys ==> y in xs)
  {
  }

  lemma CancelKeepsOrder<T>(s: State<T>, e: Id)
    requires InOrder(s) && e < |s.entries|
    ensures InOrder(Cancel(s, e)) && |Cancel(s, e).entries| == |s.entries|
  {
    hide Without;
    WithoutKeepsOrder(s.pending, e);
    var t := Cancel(s, e);
    forall i | 0 <= i < |t.pending| ensures t.pending[i] < |t.entries| { assert t.pending[i] in s.pending; }
  }

  lemma {:induction false} CancelFromKeepsOrder<T>(s: State<T>, from: Id)
    requires InOrder(s) && from <= |s.entries|
    ensures InOrder(CancelFrom(s, from))
    decreases |s.entries| - from
  {
    hide InOrder, Cancel;
    if from < |s.entries| {
      CancelKeepsOrder(s, from);
      CancelFromKeepsOrder(if s.Live(from) && !s.entries[from].started then Cancel(s, from) else s, from + 1);
    }
  }

  /** Whatever `Pump` claims, no older entry that could have been claimed is left behind. */
  ghost predicate TookOldest<T>(s: State<T>, t: State<T>) {
    forall e: Id, f: Id :: Claimed(s, t, e) && f in t.pending && f < e ==> !t.First(f)
  }

  predicate KeysStay<T>(s: State<T>, t: State<T>) {
    |s.entries| == |t.entries| && t.keyed == s.keyed && forall e :: 0 <= e < |s.entries| ==> t.entries[e].key == s.entries[e].key
  }

  lemma ClaimKeepsOrder<T>(s: State<T>, i: nat)
    requires InOrder(s) && i < |s.pending|
    ensures InOrder(Claim(s, i)) && KeysStay(s, Claim(s, i)) && |Claim(s, i).pending| < |s.pending|
    ensures forall f :: f in Claim(s, i).pending ==> f in s.pending
  {
  }

  lemma {:induction false} PumpTakesOldest<T>(s: State<T>)
    requires InOrder(s)
    ensures InOrder(Pump(s)) && TookOldest(s, Pump(s)) && KeysStay(s, Pump(s))
    ensures forall f :: f in Pump(s).pending ==> f in s.pending
    decreases |s.pending|
  {
    hide InOrder, Claim;
    var i := FirstEligible(s, 0);
    if s.active < s.concurrency && i.Some? {
      ClaimKeepsOrder(s, i.value);
      PumpTakesOldest(Claim(s, i.value));
      FirstClaimIsOldest(s, i.value, Pump(Claim(s, i.value)));
    }
  }

  lemma FirstClaimIsOldest<T>(s: State<T>, i: nat, t: State<T>)
    requires InOrder(s) && FirstEligible(s, 0) == Some(i)
    requires TookOldest(Claim(s, i), t) && KeysStay(Claim(s, i), t) && forall f :: f in t.pending ==> f in Claim(s, i).pending
    ensures TookOldest(s, t)
  {
    var c := Claim(s, i);
    forall e: Id, f: Id | Claimed(s, t, e) && f in t.pending && f < e ensures !t.First(f) {
      if e == s.pending[i] { OlderIsNotFirst(s, i, f); } else { assert Claimed(c, t, e); }
    }
  }

  /** In an ordered queue, what is older than the first eligible entry is not eligible. */
  lemma OlderIsNotFirst<T>(s: State<T>, i: nat, f: Id)
    requires InOrder(s) && FirstEligible(s, 0) == Some(i) && f in Claim(s, i).pending && f < s.pending[i]
    ensures !s.First(f)
  {
    var c := Claim(s, i).pending;
    var j :| 0 <= j < |c| && c[j] == f;
    assert c[j] == s.pending[if j < i then j else j + 1];
  }

  /** Every call and event keeps the queue in order. */
  lemma StepKeepsOrder<T>(s: State<T>, op: Op<T>)
    requires Inv(s) && InOrder(s) && Enabled(s, op)
    ensures InOrder(Apply(s, op))
  {
    hide Pump, CancelFrom, TookOldest, KeysStay, Base, Saturated;
    match op
    case DoSchedule(key, value) => ScheduleTakesOldest(s, key, value);
    case DoSetConcurrency(next) => if next >= 1 { PumpTakesOldest(s.(concurrency := next)); }
    case DoFinish(e, succeeded) => PumpTakesOldest(Finished(s, e, succeeded));
    case DoClose => if !s.closed { CancelFromKeepsOrder(s.(closed := true), 0); }
    case DoDrain =>
    case DoStart(e) =>
  }

  lemma ScheduleTakesOldest<T>(s: State<T>, key: string, value: T)
    requires Inv(s) && InOrder(s)
    ensures InOrder(Schedule(s, key, value).0) && TookOldest(s, Schedule(s, key, value).0)
  {
    hide Pump, KeysStay;
    if !s.closed {
      var generations := if key in s.keyed then s.keyed[key] else [];
      if key in s.keyed { assert Generations(s, key); }
      if generations == [] || s.entries[generations[|generations| - 1]].started {
        var t := s.(entries := s.entries + [Entry(key, value, false, false, Unsettled, 0)],
                    keyed := s.keyed[key := generations + [|s.entries|]], pending := s.pending + [|s.entries|]);
        PumpTakesOldest(t);
        FromThere(s, t, Pump(t));
      }
    }
  }

  /** A state that claims nothing new may stand in for the one before it. */
  lemma FromThere<T>(s: State<T>, t: State<T>, u: State<T>)
    requires TookOldest(t, u) && |s.entries| <= |t.entries|
    requires forall e :: 0 <= e < |s.entries| ==> t.entries[e].claimed == s.entries[e].claimed
    requires forall e :: |s.entries| <= e < |t.entries| ==> !t.entries[e].claimed
    ensures TookOldest(s, u)
  {
    forall e: Id, f: Id | Claimed(s, u, e) && f in u.pending && f < e ensures !u.First(f) {
      assert Claimed(t, u, e);
    }
  }

  /** Whatever a step claims, it leaves no older entry queued that could have been claimed instead. */
  lemma ClaimsOldestFirst<T>(s: State<T>, op: Op<T>, e: Id, f: Id)
    requires Inv(s) && InOrder(s) && Enabled(s, op)
    requires Claimed(s, Apply(s, op), e) && f in Apply(s, op).pending && f < e
    ensures !Apply(s, op).First(f)
  {
    match op
    case DoSchedule(key, value) => ScheduleTakesOldest(s, key, value);
    case DoSetConcurrency(next) =>
      if next >= 1 {
        PumpTakesOldest(s.(concurrency := next));
        FromThere(s, s.(concurrency := next), Pump(s.(concurrency := next)));
      }
    case DoFinish(x, succeeded) => FinishTakesOldest(s, x, succeeded);
    case DoClose => if !s.closed { CancelFromEntries(s.(closed := true), 0); }
    case DoDrain =>
    case DoStart(x) =>
  }

  lemma FinishTakesOldest<T>(s: State<T>, x: Id, succeeded: bool)
    requires Inv(s) && InOrder(s) && x in s.running && x < |s.entries|
    ensures TookOldest(s, Finish(s, x, succeeded))
  {
    var t := Finished(s, x, succeeded);
    if !s.closed {
      PumpTakesOldest(t);
      FromThere(s, t, Pump(t));
      forall e: Id, f: Id | Claimed(s, Finish(s, x, succeeded), e) && f in Finish(s, x, succeeded).pending && f < e
        ensures !Finish(s, x, succeeded).First(f)
      {
        assert Claimed(s, Pump(t), e) && f in Pump(t).pending;
      }
    }
  }

  /** In every run from an empty scheduler. */
  lemma {:induction false} RunKeepsOrder<T>(s: State<T>, ops: seq<Op<T>>)
    requires Inv(s) && InOrder(s) && Possible(s, ops)
    ensures InOrder(After(s, ops))
    decreases |ops|
  {
    if ops != [] {
      StepKeeps(s, ops[0]);
      StepKeepsOrder(s, ops[0]);
      RunKeepsOrder(Apply(s, ops[0]), ops[1..]);
    }
  }

  /** As many as the limit allows: a scheduler that is not closed leaves no eligible entry queued while a place is free. */
  lemma NothingEligibleWaits<T>(s: State<T>, f: Id)
    requires Inv(s) && !s.closed && f in s.pending && s.active < s.concurrency
    ensures !s.First(f)
  {
  }
}
