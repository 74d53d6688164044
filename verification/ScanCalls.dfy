/**
 The third scheduler of the controller (`scanCalls`, src/runtime/controller.ts:136-140, 297-302): a scan that runs has its
 repository read through it. Its tickets come back in the call object it schedules, so they would be lost if the call
 joined another one. It never does: a repository has one scan at a time, and a scan waits for its call.
 */
module ScanCalls {
  import opened Basics
  import M = SchedulerModel
  import I = SchedulerInvariant
  import D = DiscoveryCoverage

  /** `calls` carries the scan entry that made each call; `made` are the scans that have made theirs. */
  datatype State = State(scans: M.State<int>, calls: M.State<M.Id>, made: set<M.Id>)

  datatype Event =
    | ScanOp(scanOp: I.Op<int>)
    | Call(scan: M.Id)
    | CallOp(callOp: I.Op<M.Id>)

  /** A scan awaits its call: while that lives, the scan does not finish. */
  predicate Awaits(s: State, scan: M.Id) {
    exists c :: 0 <= c < |s.calls.entries| && s.calls.Live(c) && s.calls.entries[c].value == scan
  }

  predicate Enabled(s: State, e: Event) {
    match e
    case ScanOp(op) => I.Enabled(s.scans, op) && (op.DoFinish? ==> !Awaits(s, op.id))
    case Call(scan) => scan in s.scans.running && scan !in s.made && scan < |s.scans.entries|
    case CallOp(op) => I.Enabled(s.calls, op) && (op.DoStart? || op.DoFinish? || op.DoClose?)
  }

  function Apply(s: State, e: Event): State
    requires Enabled(s, e)
  {
    match e
    case ScanOp(op) => s.(scans := I.Apply(s.scans, op))
    case Call(scan) => s.(calls := M.Schedule(s.calls, s.scans.KeyOf(scan), scan).0, made := s.made + {scan})
    case CallOp(op) => s.(calls := I.Apply(s.calls, op))
  }

  /** A live call was made by a running scan of its repository. */
  ghost predicate CallOk(s: State, c: M.Id)
    requires c < |s.calls.entries|
  {
    s.calls.Live(c) ==>
      var scan := s.calls.entries[c].value;
      scan in s.scans.running && scan in s.made && scan < |s.scans.entries| && s.scans.KeyOf(scan) == s.calls.KeyOf(c)
  }

  ghost predicate Inv(s: State) {
    && I.Inv(s.scans) && I.Inv(s.calls)
    && (forall c :: 0 <= c < |s.calls.entries| ==> CallOk(s, c))
    && (forall c, d :: 0 <= c < d < |s.calls.entries| && s.calls.Live(c) && s.calls.Live(d) ==> s.calls.entries[c].value != s.calls.entries[d].value)
  }

  function Idle(concurrency: int): State {
    State(M.Init(concurrency), M.Init(1), {})
  }

  lemma IdleHolds(concurrency: int)
    requires concurrency >= 1
    ensures Inv(Idle(concurrency))
  {
    I.InitHolds<int>(concurrency);
    I.InitHolds<M.Id>(1);
  }

  /** Only finishing ends a run. */
  lemma RunningStays<T>(s: M.State<T>, op: I.Op<T>, e: M.Id)
    requires I.Inv(s) && I.Enabled(s, op) && e in s.running && (op.DoFinish? ==> op.id != e)
    ensures var t := I.Apply(s, op);
            e < |s.entries| && e < |t.entries| && e in t.running && t.KeyOf(e) == s.KeyOf(e)
  {
    var t := I.Apply(s, op);
    assert I.EntryOk(s, e);
    I.StepKeeps(s, op);
    I.StepOrderly(s, op);
    assert I.Changed(op, e, s.entries[e], t.entries[e]);
    assert I.EntryOk(t, e);
  }

  /** Starting, finishing and closing add no entry, and bring none back to life. */
  lemma NoneArises<T>(s: M.State<T>, op: I.Op<T>)
    requires I.Inv(s) && I.Enabled(s, op) && (op.DoStart? || op.DoFinish? || op.DoClose?)
    ensures var t := I.Apply(s, op);
            && |t.entries| == |s.entries|
            && forall e :: 0 <= e < |t.entries| && t.Live(e) ==> s.Live(e) && t.KeyOf(e) == s.KeyOf(e) && t.entries[e].value == s.entries[e].value
  {
    var t := I.Apply(s, op);
    I.StepOrderly(s, op);
    if op.DoFinish? { D.FinishShape(s, op.id, op.succeeded); }
    if op.DoClose? && !s.closed { I.CancelFromEntries(s.(closed := true), 0); }
    forall e | 0 <= e < |t.entries| && t.Live(e) ensures s.Live(e) && t.KeyOf(e) == s.KeyOf(e) && t.entries[e].value == s.entries[e].value {
      assert I.Changed(op, e, s.entries[e], t.entries[e]);
    }
  }

  /** A scan about to call finds no live call of its repository. */
  lemma NoOtherCall(s: State, scan: M.Id, c: M.Id)
    requires Inv(s) && Enabled(s, Call(scan)) && c < |s.calls.entries| && s.calls.KeyOf(c) == s.scans.KeyOf(scan)
    ensures !s.calls.Live(c)
  {
    assert CallOk(s, c);
    if s.calls.Live(c) {
      I.RunsDoNotOverlap(s.scans, scan, s.calls.entries[c].value);
    }
  }

  /** So its call is accepted as a new entry that carries this very scan, and joins no other. */
  lemma EveryScanMakesItsOwnCall(s: State, scan: M.Id)
    requires Inv(s) && Enabled(s, Call(scan)) && !s.calls.closed
    ensures var (t, ticket) := M.Schedule(s.calls, s.scans.KeyOf(scan), scan);
            && ticket == M.Accepted(|s.calls.entries|)
            && |t.entries| == |s.calls.entries| + 1 && t.entries[|s.calls.entries|].value == scan && t.Live(|s.calls.entries|)
  {
    var key := s.scans.KeyOf(scan);
    if key in s.calls.keyed {
      assert I.Generations(s.calls, key);
      NoOtherCall(s, scan, s.calls.keyed[key][0]);
      assert false;
    }
    D.ScheduleShape(s.calls, key, scan);
    I.ScheduleAnswersUnstarted(s.calls, key, scan);
  }

  lemma CallKeeps(s: State, scan: M.Id)
    requires Inv(s) && Enabled(s, Call(scan))
    ensures Inv(Apply(s, Call(scan)))
  {
    var t := Apply(s, Call(scan));
    D.ScheduleShape(s.calls, s.scans.KeyOf(scan), scan);
    forall c | 0 <= c < |t.calls.entries| ensures CallOk(t, c) {
      if c < |s.calls.entries| { assert CallOk(s, c); }
    }
    forall c, d | 0 <= c < d < |t.calls.entries| && t.calls.Live(c) && t.calls.Live(d) ensures t.calls.entries[c].value != t.calls.entries[d].value {
      assert CallOk(s, c);
    }
  }

  /** Every interleaving of scans, calls and closing keeps each live call with its running scan. */
  lemma StepKeeps(s: State, e: Event)
    requires Inv(s) && Enabled(s, e)
    ensures Inv(Apply(s, e))
  {
    var t := Apply(s, e);
    match e
    case ScanOp(op) =>
      I.StepKeeps(s.scans, op);
      forall c | 0 <= c < |t.calls.entries| ensures CallOk(t, c) {
        assert CallOk(s, c);
        if s.calls.Live(c) { RunningStays(s.scans, op, s.calls.entries[c].value); }
      }
    case Call(scan) => CallKeeps(s, scan);
    case CallOp(op) =>
      I.StepKeeps(s.calls, op);
      NoneArises(s.calls, op);
      forall c | 0 <= c < |t.calls.entries| ensures CallOk(t, c) { assert CallOk(s, c); }
  }

  predicate Possible(s: State, events: seq<Event>)
    decreases |events|
  {
    events == [] || (Enabled(s, events[0]) && Possible(Apply(s, events[0]), events[1..]))
  }

  function After(s: State, events: seq<Event>): State
    requires Possible(s, events)
    decreases |events|
  {
    if events == [] then s else After(Apply(s, events[0]), events[1..])
  }

  lemma {:induction false} RunKeeps(s: State, events: seq<Event>)
    requires Inv(s) && Possible(s, events)
    ensures Inv(After(s, events))
    decreases |events|
  {
    if events != [] {
      StepKeeps(s, events[0]);
      RunKeeps(Apply(s, events[0]), events[1..]);
    }
  }

  /** In every run a repository has at most one call in flight or waiting. */
  lemma CallsOfARepositoryDoNotOverlap(concurrency: int, events: seq<Event>, c: M.Id, d: M.Id)
    requires concurrency >= 1 && Possible(Idle(concurrency), events)
    requires var t := After(Idle(concurrency), events).calls;
             c < |t.entries| && d < |t.entries| && t.Live(c) && t.Live(d) && t.KeyOf(c) == t.KeyOf(d)
    ensures c == d
  {
    IdleHolds(concurrency);
    RunKeeps(Idle(concurrency), events);
    var t := After(Idle(concurrency), events);
    assert CallOk(t, c) && CallOk(t, d);
    I.RunsDoNotOverlap(t.scans, t.calls.entries[c].value, t.calls.entries[d].value);
  }
}
