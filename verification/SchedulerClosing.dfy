/** What closing the scheduler rejects, and that nothing begins afterwards (src/runtime/scheduler.ts:44-126). */
module SchedulerClosing {
  import opened Basics
  import opened SchedulerModel
  import opened SchedulerInvariant

  lemma {:induction false} CancelFromKeepsRunning<T>(s: State<T>, from: Id)
    requires from <= |s.entries|
    ensures CancelFrom(s, from).running == s.running && CancelFrom(s, from).closed == s.closed
    decreases |s.entries| - from
  {
    if from < |s.entries| {
      CancelFromKeepsRunning(if s.Live(from) && !s.entries[from].started then Cancel(s, from) else s, from + 1);
    }
  }

  /** Closing rejects every entry that has not started, each once, and leaves the others and their work alone. */
  lemma CloseRejectsTheRest<T>(s: State<T>)
    requires Inv(s) && !s.closed
    ensures var t := Close(s);
            && t.closed && t.running == s.running && t.pending == [] && |t.entries| == |s.entries|
            && forall e :: 0 <= e < |s.entries| ==>
                 t.entries[e] == if s.Live(e) && !s.entries[e].started
                                 then s.entries[e].(outcome := Cancelled, settles := s.entries[e].settles + 1) else s.entries[e]
  {
    var c := s.(closed := true);
    CancelFromEntries(c, 0);
    CancelFromKeepsRunning(c, 0);
    CloseKeeps(s);
    forall e | 0 <= e < |s.entries| ensures c.Live(e) == s.Live(e) {}
  }

  /** One step of a closed scheduler. */
  lemma ClosedStep<T>(s: State<T>, op: Op<T>)
    requires Inv(s) && s.closed && Enabled(s, op)
    ensures var t := Apply(s, op);
            && t.closed && |t.entries| == |s.entries|
            && forall e :: 0 <= e < |s.entries| ==> t.entries[e].started == s.entries[e].started && t.entries[e].claimed == s.entries[e].claimed
  {
  }

  /** In every run of a closed scheduler nothing is accepted, claimed or started any more. */
  lemma {:induction false} NothingBeginsAfterClose<T>(s: State<T>, ops: seq<Op<T>>, key: string, value: T)
    requires Inv(s) && s.closed && Possible(s, ops)
    ensures var t := After(s, ops);
            && t.closed && |t.entries| == |s.entries| && Schedule(t, key, value) == (t, Rejected)
            && forall e :: 0 <= e < |s.entries| ==> t.entries[e].started == s.entries[e].started && t.entries[e].claimed == s.entries[e].claimed
    decreases |ops|
  {
    if ops != [] {
      StepKeeps(s, ops[0]);
      ClosedStep(s, ops[0]);
      NothingBeginsAfterClose(Apply(s, ops[0]), ops[1..], key, value);
    }
  }
}
