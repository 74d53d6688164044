/** The scheduler object of src/runtime/scheduler.ts, each method proved to make the move that `SchedulerModel` specifies. */
module SchedulerClass {
  import opened Basics
  import M = SchedulerModel
  import I = SchedulerInvariant

  class Scheduler<T> {
    var entries: seq<M.Entry<T>>
    var pending: seq<M.Id>
    var keyed: map<string, seq<M.Id>>
    var active: int
    var concurrency: int
    var closed: bool
    var microtasks: set<M.Id>
    var running: set<M.Id>
    var waiting: nat
    var drains: nat

    function Model(): M.State<T>
      reads this
    {
      M.State(entries, pending, keyed, active, concurrency, closed, microtasks, running, waiting, drains)
    }

    ghost predicate Valid()
      reads this
    {
      I.Inv(Model())
    }

    constructor (concurrency: int)
      requires concurrency >= 1
      ensures Valid() && Model() == M.Init(concurrency)
    {
      entries, pending, keyed := [], [], map[];
      active, this.concurrency, closed := 0, concurrency, false;
      microtasks, running, waiting, drains := {}, {}, 0, 0;
      new;
      I.InitHolds<T>(concurrency);
    }

    method Schedule(key: string, value: T) returns (ticket: M.Ticket)
      requires Valid()
      modifies this
      ensures Valid()
      ensures (Model(), ticket) == M.Schedule(old(Model()), key, value)
    {
      I.ScheduleKeeps(Model(), key, value);
      if closed { return M.Rejected; }
      var generations := if key in keyed then keyed[key] else [];
      if generations != [] {
        var latest := generations[|generations| - 1];
        if latest < |entries| && !entries[latest].started { return M.Accepted(latest); }
      }
      var e := |entries|;
      entries := entries + [M.Entry(key, value, false, false, M.Unsettled, 0)];
      keyed := keyed[key := generations + [e]];
      pending := pending + [e];
      Pump();
      return M.Accepted(e);
    }

    method SetConcurrency(next: int) returns (ok: bool)
      requires Valid()
      modifies this
      ensures Valid() && ok == (next >= 1)
      ensures Model() == M.SetConcurrency(old(Model()), next)
    {
      I.SetConcurrencyKeeps(Model(), next);
      if next < 1 { return false; }
      concurrency := next;
      Pump();
      return true;
    }

    method Close()
      requires Valid()
      modifies this
      ensures Valid()
      ensures Model() == M.Close(old(Model()))
    {
      I.CloseKeeps(Model());
      if closed { return; }
      closed := true;
      CancelUnstarted();
      SettleDrain();
    }

    method CancelUnstarted()
      modifies this
      ensures Model() == M.CancelFrom(old(Model()), 0)
    {
      ghost var start := Model();
      var e := 0;
      while e < |entries|
        invariant e <= |entries|
        invariant M.CancelFrom(Model(), e) == M.CancelFrom(start, 0)
        decreases |entries| - e
      {
        if entries[e].outcome.Unsettled? && !entries[e].started { CancelEntry(e); }
        e := e + 1;
      }
    }

    method CancelEntry(e: M.Id)
      requires e < |entries|
      modifies this
      ensures Model() == M.Cancel(old(Model()), e)
    {
      pending := M.Without(pending, e);
      if entries[e].claimed { active := active - 1; }
      keyed := M.RemoveFrom(keyed, entries[e].key, e);
      entries := entries[e := entries[e].(outcome := M.Cancelled, settles := entries[e].settles + 1)];
    }

    /** Answers whether the promise it returns is already resolved. */
    method Drain() returns (resolved: bool)
      requires Valid()
      modifies this
      ensures Valid() && resolved == (old(Model()).Idle())
      ensures Model() == M.Drain(old(Model()))
    {
      I.DrainKeeps(Model());
      if active == 0 && pending == [] {
        drains := drains + 1;
        return true;
      }
      waiting := waiting + 1;
      return false;
    }

    method Start(e: M.Id)
      requires Valid() && e in microtasks && e < |entries|
      modifies this
      ensures Valid()
      ensures Model() == M.Start(old(Model()), e)
    {
      I.StartKeeps(Model(), e);
      microtasks := microtasks - {e};
      if closed || !(entries[e].key in keyed && keyed[entries[e].key] != [] && keyed[entries[e].key][0] == e) { return; }
      entries := entries[e := entries[e].(started := true)];
      running := running + {e};
    }

    method Finish(e: M.Id, succeeded: bool)
      requires Valid() && e in running && e < |entries|
      modifies this
      ensures Valid()
      ensures Model() == M.Finish(old(Model()), e, succeeded)
    {
      I.FinishKeeps(Model(), e, succeeded);
      Free(e, if succeeded then M.Resolved else M.Failed);
      if !closed { Pump(); }
      SettleDrain();
    }

    method Free(e: M.Id, outcome: M.Outcome)
      requires e < |entries|
      modifies this
      ensures var s := old(Model());
              Model() == M.Settle(s.(active := s.active - 1, keyed := M.RemoveFrom(s.keyed, s.entries[e].key, e), running := s.running - {e}),
                                  e, outcome)
    {
      active := active - 1;
      keyed := M.RemoveFrom(keyed, entries[e].key, e);
      running := running - {e};
      entries := entries[e := entries[e].(outcome := outcome, settles := entries[e].settles + 1)];
    }

    method Pump()
      modifies this
      ensures Model() == M.Pump(old(Model()))
    {
      while active < concurrency
        invariant M.Pump(Model()) == M.Pump(old(Model()))
        decreases |pending|
      {
        var i := FindEligible();
        if i.None? { return; }
        ClaimAt(i.value);
      }
    }

    method ClaimAt(i: nat)
      requires i < |pending| && pending[i] < |entries|
      modifies this
      ensures Model() == M.Claim(old(Model()), i)
    {
      var e := pending[i];
      pending := pending[..i] + pending[i + 1..];
      entries := entries[e := entries[e].(claimed := true)];
      active := active + 1;
      microtasks := microtasks + {e};
    }

    method FindEligible() returns (i: Option<nat>)
      ensures i == M.FirstEligible(Model(), 0)
    {
      var k := 0;
      while k < |pending|
        invariant k <= |pending|
        invariant M.FirstEligible(Model(), 0) == M.FirstEligible(Model(), k)
      {
        if Model().First(pending[k]) { return Some(k); }
        k := k + 1;
      }
      return None;
    }

    method SettleDrain()
      modifies this
      ensures Model() == M.SettleDrain(old(Model()))
    {
      if active == 0 && pending == [] {
        drains := drains + waiting;
        waiting := 0;
      }
    }
  }

  /** `createScheduler` refuses a concurrency below one. */
  method CreateScheduler<T>(concurrency: int) returns (r: Option<Scheduler<T>>)
    ensures r.Some? <==> concurrency >= 1
    ensures r.Some? ==> fresh(r.value) && r.value.Valid() && r.value.Model() == M.Init(concurrency)
  {
    if concurrency < 1 { return None; }
    var s := new Scheduler<T>(concurrency);
    return Some(s);
  }
}
