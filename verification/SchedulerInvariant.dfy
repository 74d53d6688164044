/** What every call and event of the scheduler keeps, and what follows over whole runs. */
module SchedulerInvariant {
  import opened Basics
  import opened SchedulerModel

  /** One key's generations: live entries of that key, at most two, the second waiting behind a started first. */
  ghost predicate Generations<T>(s: State<T>, key: string)
    requires key in s.keyed
  {
    var gens := s.keyed[key];
    && 1 <= |gens| <= 2
    && (forall i :: 0 <= i < |gens| ==> s.Live(gens[i]) && s.KeyOf(gens[i]) == key)
    && (|gens| == 2 ==> gens[0] != gens[1] && s.entries[gens[0]].started && !s.entries[gens[1]].claimed)
  }

  ghost predicate EntryCore<T>(s: State<T>, e: Id)
    requires e < |s.entries|
  {
    var x := s.entries[e];
    && (x.started ==> x.claimed)
    && x.settles == (if s.Live(e) then 0 else 1)
    && (s.Live(e) ==> x.key in s.keyed && e in s.keyed[x.key])
    && (s.Live(e) && !x.claimed ==> e in s.pending)
    && (s.Live(e) && x.claimed && !x.started ==> e in s.microtasks)
    && (e in s.microtasks ==> x.claimed && (s.Live(e) ==> !x.started))
    && (e in s.running <==> s.Live(e) && x.started)
    && (x.outcome.Resolved? || x.outcome.Failed? ==> x.started)
    && (x.outcome.Cancelled? ==> !x.started && s.closed)
  }

  /** The flags of one entry agree with the lists it appears in; once closed, only started entries live on. */
  ghost predicate EntryOk<T>(s: State<T>, e: Id)
    requires e < |s.entries|
  {
    EntryCore(s, e) && (s.closed && s.Live(e) ==> s.entries[e].started)
  }

  ghost predicate Queued<T>(s: State<T>, i: nat)
    requires i < |s.pending|
  {
    var e := s.pending[i];
    s.Live(e) && !s.entries[e].claimed
  }

  ghost predicate Base<T>(s: State<T>) {
    && s.concurrency >= 1
    && s.active == |s.ClaimedLive()|
    && (forall e :: 0 <= e < |s.entries| ==> EntryOk(s, e))
    && (forall key :: key in s.keyed ==> Generations(s, key))
    && (forall i :: 0 <= i < |s.pending| ==> Queued(s, i))
    && Distinct(s.pending)
    && (forall e :: e in s.running || e in s.microtasks ==> e < |s.entries|)
    && (s.closed ==> s.pending == [])
  }

  ghost predicate Saturated<T>(s: State<T>) {
    s.closed || s.active >= s.concurrency || FirstEligible(s, 0).None?
  }

  ghost predicate Inv<T>(s: State<T>) {
    && Base(s)
    && Saturated(s)
    && (s.waiting > 0 ==> !s.Idle())
  }

  lemma InitHolds<T>(concurrency: int)
    requires concurrency >= 1
    ensures Inv(Init<T>(concurrency))
  {
    assert Init<T>(concurrency).ClaimedLive() == {};
  }

  // ----- pump -----

  lemma ClaimKeepsBase<T>(s: State<T>, i: nat)
    requires Base(s) && !s.closed && i < |s.pending| && s.First(s.pending[i])
    ensures Base(Claim(s, i)) && !Claim(s, i).Idle()
  {
    var e := s.pending[i];
    assert Queued(s, i);
    var t := Claim(s, i);
    assert t.ClaimedLive() == s.ClaimedLive() + {e};
    ClaimKeepsEntries(s, i);
    ClaimKeepsQueue(s, i);
    forall key | key in t.keyed ensures Generations(t, key) {
      assert Generations(s, key);
    }
  }

  lemma ClaimKeepsEntries<T>(s: State<T>, i: nat)
    requires Base(s) && !s.closed && i < |s.pending| && s.pending[i] < |s.entries|
    ensures forall x :: 0 <= x < |s.entries| ==> EntryOk(Claim(s, i), x)
  {
    var e := s.pending[i];
    assert Queued(s, i);
    var t := Claim(s, i);
    forall x | 0 <= x < |t.entries| ensures EntryOk(t, x) {
      assert EntryOk(s, x);
      if x != e && x in s.pending {
        var j :| 0 <= j < |s.pending| && s.pending[j] == x;
        assert t.pending[if j < i then j else j - 1] == x;
      }
    }
  }

  lemma ClaimKeepsQueue<T>(s: State<T>, i: nat)
    requires Base(s) && i < |s.pending| && s.pending[i] < |s.entries|
    ensures var t := Claim(s, i); Distinct(t.pending) && forall j :: 0 <= j < |t.pending| ==> Queued(t, j)
  {
    var t := Claim(s, i);
    forall j | 0 <= j < |t.pending| ensures Queued(t, j) {
      assert t.pending[j] == s.pending[if j < i then j else j + 1];
      assert Queued(s, if j < i then j else j + 1);
    }
  }

  lemma {:induction false} PumpKeepsBase<T>(s: State<T>)
    requires Base(s) && !s.closed
    ensures Base(Pump(s)) && Saturated(Pump(s))
    ensures !s.Idle() ==> !Pump(s).Idle()
    ensures Pump(s) != s ==> Pump(s).active <= s.concurrency
    ensures Pump(s).waiting == s.waiting && Pump(s).closed == s.closed && Pump(s).concurrency == s.concurrency
    ensures Pump(s).drains == s.drains && Pump(s).running == s.running
    ensures |Pump(s).entries| == |s.entries|
    ensures forall e :: 0 <= e < |s.entries| ==>
              Pump(s).entries[e] == s.entries[e].(claimed := Pump(s).entries[e].claimed) && (s.entries[e].claimed ==> Pump(s).entries[e].claimed)
    decreases |s.pending|
  {
    var i := FirstEligible(s, 0);
    if s.active < s.concurrency && i.Some? {
      assert Queued(s, i.value);
      ClaimKeepsBase(s, i.value);
      PumpKeepsBase(Claim(s, i.value));
    }
  }

  // ----- schedule, setConcurrency, drain -----

  lemma AppendKeepsQueue<T>(s: State<T>, t: State<T>)
    requires Base(s) && t.pending == s.pending + [|s.entries|] && |t.entries| == |s.entries| + 1
    requires forall x :: 0 <= x < |s.entries| ==> t.entries[x] == s.entries[x]
    requires t.entries[|s.entries|].outcome.Unsettled? && !t.entries[|s.entries|].claimed
    ensures (forall i :: 0 <= i < |t.pending| ==> Queued(t, i)) && Distinct(t.pending)
    ensures forall x :: x in s.pending ==> x in t.pending
  {
    forall i | 0 <= i < |t.pending| ensures Queued(t, i) {
      if i < |s.pending| { assert t.pending[i] == s.pending[i] && Queued(s, i); }
    }
    forall i | 0 <= i < |s.pending| ensures s.pending[i] < |s.entries| { assert Queued(s, i); }
  }

  lemma AppendKeepsBase<T>(s: State<T>, key: string, value: T, generations: seq<Id>)
    requires Base(s) && !s.closed
    requires generations == (if key in s.keyed then s.keyed[key] else [])
    requires generations == [] || s.entries[generations[|generations| - 1]].started
    requires forall i :: 0 <= i < |generations| ==> generations[i] < |s.entries|
    ensures Base(s.(entries := s.entries + [Entry(key, value, false, false, Unsettled, 0)],
                    keyed := s.keyed[key := generations + [|s.entries|]], pending := s.pending + [|s.entries|]))
  {
    var e := |s.entries|;
    var t := s.(entries := s.entries + [Entry(key, value, false, false, Unsettled, 0)],
                keyed := s.keyed[key := generations + [e]], pending := s.pending + [e]);
    assert t.ClaimedLive() == s.ClaimedLive();
    if key in s.keyed {
      assert Generations(s, key) && EntryOk(s, generations[|generations| - 1]);
    }
    AppendKeepsQueue(s, t);
    forall x | 0 <= x < |t.entries| ensures EntryOk(t, x) {
      if x < e {
        assert EntryOk(s, x);
      } else {
        assert t.pending[|s.pending|] == e && t.keyed[key][|generations|] == e;
      }
    }
    forall k | k in t.keyed ensures Generations(t, k) {
      if k in s.keyed { assert Generations(s, k); }
    }
  }

  lemma ScheduleKeeps<T>(s: State<T>, key: string, value: T)
    requires Inv(s)
    ensures Inv(Schedule(s, key, value).0)
  {
    if !s.closed {
      var generations := if key in s.keyed then s.keyed[key] else [];
      if key in s.keyed { assert Generations(s, key); }
      if generations == [] || s.entries[generations[|generations| - 1]].started {
        AppendKeepsBase(s, key, value, generations);
        PumpKeepsBase(s.(entries := s.entries + [Entry(key, value, false, false, Unsettled, 0)],
                         keyed := s.keyed[key := generations + [|s.entries|]], pending := s.pending + [|s.entries|]));
      }
    }
  }

  lemma ConcurrencyKeepsBase<T>(s: State<T>, next: int)
    requires Base(s) && next >= 1
    ensures Base(s.(concurrency := next))
  {
    var t := s.(concurrency := next);
    assert t.ClaimedLive() == s.ClaimedLive();
    forall e | 0 <= e < |t.entries| ensures EntryOk(t, e) { assert EntryOk(s, e); }
    forall k | k in t.keyed ensures Generations(t, k) { assert Generations(s, k); }
    forall i | 0 <= i < |t.pending| ensures Queued(t, i) { assert Queued(s, i); }
  }

  lemma SetConcurrencyKeeps<T>(s: State<T>, next: int)
    requires Inv(s)
    ensures Inv(SetConcurrency(s, next))
  {
    if next >= 1 {
      var t := s.(concurrency := next);
      ConcurrencyKeepsBase(s, next);
      if s.closed {
        assert Pump(t) == t;
      } else {
        PumpKeepsBase(t);
      }
    }
  }

  lemma DrainKeeps<T>(s: State<T>)
    requires Inv(s)
    ensures Inv(Drain(s))
  {
    SameCoreKeepsBase(s, Drain(s));
  }

  /** `Base` and saturation read nothing of the drain promises. */
  lemma SameCoreKeepsBase<T>(s: State<T>, t: State<T>)
    requires Base(s) && t == s.(waiting := t.waiting, drains := t.drains)
    ensures Base(t) && (Saturated(s) ==> Saturated(t))
  {
    assert t.ClaimedLive() == s.ClaimedLive();
    forall e | 0 <= e < |t.entries| ensures EntryOk(t, e) { assert EntryOk(s, e); }
    forall k | k in t.keyed ensures Generations(t, k) { assert Generations(s, k); }
    forall i | 0 <= i < |t.pending| ensures Queued(t, i) { assert Queued(s, i); }
    SameFirstEligible(s, t, 0);
  }

  lemma {:induction false} SameFirstEligible<T>(s: State<T>, t: State<T>, from: nat)
    requires s.pending == t.pending && from <= |s.pending|
    requires forall i :: 0 <= i < |s.pending| ==> (s.First(s.pending[i]) <==> t.First(s.pending[i]))
    ensures FirstEligible(s, from) == FirstEligible(t, from)
    decreases |s.pending| - from
  {
    if from < |s.pending| && !s.First(s.pending[from]) {
      SameFirstEligible(s, t, from + 1);
    }
  }

  // ----- start and finish -----

  lemma StartKeeps<T>(s: State<T>, e: Id)
    requires Inv(s) && e in s.microtasks
    ensures Inv(Start(s, e))
  {
    assert EntryOk(s, e);
    var t := Start(s, e);
    assert t.ClaimedLive() == s.ClaimedLive();
    if !s.closed && s.First(e) {
      assert Generations(s, s.KeyOf(e));
    }
    forall x | 0 <= x < |t.entries| ensures EntryOk(t, x) { assert EntryOk(s, x); }
    forall k | k in t.keyed ensures Generations(t, k) { assert Generations(s, k); }
    forall i | 0 <= i < |t.pending| ensures Queued(t, i) { assert Queued(s, i); }
    SameFirstEligible(s, t, 0);
  }

  lemma WithoutOneOfTwo(xs: seq<Id>, e: Id)
    requires 1 <= |xs| <= 2 && e in xs && Distinct(xs)
    ensures Without(xs, e) == if |xs| == 1 then [] else if xs[0] == e then [xs[1]] else [xs[0]]
  {
    var i := IndexOf(xs, e).value;
    assert xs[i] == e;
  }

  /** Taking a live entry out of its key leaves every key's generations in order, provided none waits behind it unstarted. */
  lemma RemovalKeepsGenerations<T>(s: State<T>, e: Id, t: State<T>)
    requires e < |s.entries| && EntryCore(s, e) && s.Live(e)
    requires forall key :: key in s.keyed ==> Generations(s, key)
    requires t.keyed == RemoveFrom(s.keyed, s.KeyOf(e), e) && |t.entries| == |s.entries|
    requires forall x :: 0 <= x < |s.entries| && x != e ==> t.entries[x] == s.entries[x]
    ensures forall key :: key in t.keyed ==> Generations(t, key)
    ensures forall x :: 0 <= x < |s.entries| && x != e && s.KeyOf(x) in s.keyed && x in s.keyed[s.KeyOf(x)] ==>
              s.KeyOf(x) in t.keyed && x in t.keyed[s.KeyOf(x)]
  {
    var k := s.KeyOf(e);
    assert Generations(s, k);
    WithoutOneOfTwo(s.keyed[k], e);
    forall key | key in t.keyed ensures Generations(t, key) {
      assert Generations(s, key);
      if key != k {
        OtherKeyUntouched(s, e, t, key);
      }
    }
  }

  lemma OtherKeyUntouched<T>(s: State<T>, e: Id, t: State<T>, key: string)
    requires e < |s.entries| && key in s.keyed && key != s.KeyOf(e) && Generations(s, key)
    requires key in t.keyed && t.keyed[key] == s.keyed[key] && |t.entries| == |s.entries|
    requires forall x :: 0 <= x < |s.entries| && x != e ==> t.entries[x] == s.entries[x]
    ensures Generations(t, key)
  {
    forall i | 0 <= i < |s.keyed[key]| ensures s.keyed[key][i] != e && t.entries[s.keyed[key][i]] == s.entries[s.keyed[key][i]] {
      assert s.KeyOf(s.keyed[key][i]) == key;
    }
  }

  /** `finish` before it pumps. */
  ghost function Finished<T>(s: State<T>, e: Id, succeeded: bool): State<T>
    requires e < |s.entries|
  {
    Settle(s.(active := s.active - 1, keyed := RemoveFrom(s.keyed, s.entries[e].key, e), running := s.running - {e}),
           e, if succeeded then Resolved else Failed)
  }

  lemma FinishedKeepsBase<T>(s: State<T>, e: Id, succeeded: bool)
    requires Base(s) && e in s.running
    ensures Base(Finished(s, e, succeeded))
  {
    assert EntryOk(s, e);
    var t := Finished(s, e, succeeded);
    assert t.ClaimedLive() == s.ClaimedLive() - {e};
    RemovalKeepsGenerations(s, e, t);
    forall i | 0 <= i < |t.pending| ensures Queued(t, i) { assert Queued(s, i); }
    forall x | 0 <= x < |t.entries| ensures EntryOk(t, x) { assert EntryOk(s, x); }
  }

  lemma FinishKeeps<T>(s: State<T>, e: Id, succeeded: bool)
    requires Inv(s) && e in s.running
    ensures Inv(Finish(s, e, succeeded))
  {
    FinishedKeepsBase(s, e, succeeded);
    var t := Finished(s, e, succeeded);
    var u := if s.closed then t else Pump(t);
    if !s.closed { PumpKeepsBase(t); }
    SameCoreKeepsBase(u, SettleDrain(u));
  }

  // ----- close -----

  /** While closing: entries below `from` that live have started, and what is still queued lies above. */
  ghost predicate Closing<T>(s: State<T>, from: Id) {
    && from <= |s.entries|
    && s.concurrency >= 1 && s.closed
    && s.active == |s.ClaimedLive()|
    && (forall e :: 0 <= e < |s.entries| ==> EntryCore(s, e))
    && (forall e :: 0 <= e < from && s.Live(e) ==> s.entries[e].started)
    && (forall key :: key in s.keyed ==> Generations(s, key))
    && (forall i :: 0 <= i < |s.pending| ==> Queued(s, i) && from <= s.pending[i])
    && Distinct(s.pending)
    && (forall e :: e in s.running || e in s.microtasks ==> e < |s.entries|)
  }

  lemma WithoutElement(xs: seq<Id>, e: Id)
    requires Distinct(xs)
    ensures Distinct(Without(xs, e)) && e !in Without(xs, e)
    ensures forall x :: x in Without(xs, e) <==> x in xs && x != e
  {
    var i := IndexOf(xs, e);
    if i.Some? {
      var r := xs[..i.value] + xs[i.value + 1..];
      forall x | x in xs && x != e ensures x in r {
        var j :| 0 <= j < |xs| && xs[j] == x;
        assert r[if j < i.value then j else j - 1] == x;
      }
    }
  }

  lemma CancelKeepsCount<T>(s: State<T>, e: Id)
    requires Closing(s, e) && e < |s.entries| && s.Live(e)
    ensures Cancel(s, e).active == |Cancel(s, e).ClaimedLive()|
  {
    assert Cancel(s, e).ClaimedLive() == s.ClaimedLive() - {e};
  }

  lemma CancelKeepsGenerations<T>(s: State<T>, e: Id)
    requires Closing(s, e) && e < |s.entries| && s.Live(e)
    ensures var t := Cancel(s, e); forall key :: key in t.keyed ==> Generations(t, key)
  {
    assert EntryCore(s, e);
    RemovalKeepsGenerations(s, e, Cancel(s, e));
  }

  lemma CancelKeepsStarted<T>(s: State<T>, e: Id)
    requires Closing(s, e) && e < |s.entries| && s.Live(e)
    ensures var t := Cancel(s, e); forall x :: 0 <= x < e + 1 && t.Live(x) ==> t.entries[x].started
  {
  }

  lemma CancelKeepsClosing<T>(s: State<T>, e: Id)
    requires Closing(s, e) && e < |s.entries| && s.Live(e) && !s.entries[e].started
    ensures Closing(Cancel(s, e), e + 1)
  {
    CancelKeepsCount(s, e);
    CancelKeepsGenerations(s, e);
    CancelKeepsStarted(s, e);
    WithoutElement(s.pending, e);
    CancelKeepsQueue(s, e);
    CancelKeepsEntries(s, e);
  }

  lemma CancelKeepsQueue<T>(s: State<T>, e: Id)
    requires Closing(s, e) && e < |s.entries| && s.Live(e)
    ensures var t := Cancel(s, e); forall i :: 0 <= i < |t.pending| ==> Queued(t, i) && e + 1 <= t.pending[i]
  {
    var t := Cancel(s, e);
    WithoutElement(s.pending, e);
    forall i | 0 <= i < |t.pending| ensures Queued(t, i) && e + 1 <= t.pending[i] {
      assert t.pending[i] in t.pending;
      var j :| 0 <= j < |s.pending| && s.pending[j] == t.pending[i];
      assert Queued(s, j);
    }
  }

  lemma CancelKeepsEntries<T>(s: State<T>, e: Id)
    requires Closing(s, e) && e < |s.entries| && s.Live(e) && !s.entries[e].started
    ensures var t := Cancel(s, e); forall x :: 0 <= x < |t.entries| ==> EntryCore(t, x)
  {
    var t := Cancel(s, e);
    assert EntryCore(s, e);
    RemovalKeepsGenerations(s, e, t);
    WithoutElement(s.pending, e);
    forall x | 0 <= x < |t.entries| ensures EntryCore(t, x) { assert EntryCore(s, x); }
  }

  lemma {:induction false} CancelFromKeepsClosing<T>(s: State<T>, from: Id)
    requires Closing(s, from)
    ensures var t := CancelFrom(s, from);
            Closing(t, |t.entries|) && t.waiting == s.waiting && t.closed && |t.entries| == |s.entries|
    decreases |s.entries| - from
  {
    if from < |s.entries| {
      if s.Live(from) && !s.entries[from].started {
        CancelKeepsClosing(s, from);
        CancelFromKeepsClosing(Cancel(s, from), from + 1);
      } else {
        SkipKeepsClosing(s, from);
        CancelFromKeepsClosing(s, from + 1);
      }
    }
  }

  lemma SkipKeepsClosing<T>(s: State<T>, from: Id)
    requires Closing(s, from) && from < |s.entries| && (!s.Live(from) || s.entries[from].started)
    ensures Closing(s, from + 1)
  {
    forall i | 0 <= i < |s.pending| ensures Queued(s, i) && from + 1 <= s.pending[i] {
      assert Queued(s, i);
      assert EntryCore(s, s.pending[i]);
    }
  }

  lemma CloseStarts<T>(s: State<T>)
    requires Base(s) && !s.closed
    ensures Closing(s.(closed := true), 0)
  {
    var c := s.(closed := true);
    assert c.ClaimedLive() == s.ClaimedLive();
    forall e | 0 <= e < |c.entries| ensures EntryCore(c, e) { assert EntryOk(s, e); }
    forall k | k in c.keyed ensures Generations(c, k) { assert Generations(s, k); }
    forall i | 0 <= i < |c.pending| ensures Queued(c, i) { assert Queued(s, i); }
  }

  lemma CloseKeeps<T>(s: State<T>)
    requires Inv(s)
    ensures Inv(Close(s)) && Close(s).closed
  {
    if !s.closed {
      var c := s.(closed := true);
      CloseStarts(s);
      CancelFromKeepsClosing(c, 0);
      var t := CancelFrom(c, 0);
      assert t.pending == [] by {
        assert t.pending != [] ==> Queued(t, 0);
      }
      forall e | 0 <= e < |t.entries| ensures EntryOk(t, e) { assert EntryCore(t, e); }
      SameCoreKeepsBase(t, SettleDrain(t));
    }
  }

  lemma CloseShrinks<T>(s: State<T>)
    requires Base(s) && !s.closed
    ensures Close(s).active <= s.active
    ensures Close(s).drains > s.drains ==> Close(s).Idle()
  {
    var c := s.(closed := true);
    CloseStarts(s);
    CancelFromKeepsClosing(c, 0);
    CancelFromEntries(c, 0);
    SubsetCardinality(CancelFrom(c, 0).ClaimedLive(), s.ClaimedLive());
  }

  // ----- Whole runs -----

  datatype Op<T> =
    | DoSchedule(key: string, value: T)
    | DoSetConcurrency(next: int)
    | DoClose
    | DoDrain
    | DoStart(id: Id)
    | DoFinish(id: Id, succeeded: bool)

  predicate Enabled<T>(s: State<T>, op: Op<T>) {
    match op
    case DoStart(e) => e in s.microtasks && e < |s.entries|
    case DoFinish(e, _) => e in s.running && e < |s.entries|
    case _ => true
  }

  function Apply<T>(s: State<T>, op: Op<T>): State<T>
    requires Enabled(s, op)
  {
    match op
    case DoSchedule(key, value) => Schedule(s, key, value).0
    case DoSetConcurrency(next) => SetConcurrency(s, next)
    case DoClose => Close(s)
    case DoDrain => Drain(s)
    case DoStart(e) => Start(s, e)
    case DoFinish(e, succeeded) => Finish(s, e, succeeded)
  }

  /** `ops` can happen one after another from `s`, and `After` is where they lead. */
  predicate Possible<T>(s: State<T>, ops: seq<Op<T>>)
    decreases |ops|
  {
    ops == [] || (Enabled(s, ops[0]) && Possible(Apply(s, ops[0]), ops[1..]))
  }

  function After<T>(s: State<T>, ops: seq<Op<T>>): State<T>
    requires Possible(s, ops)
    decreases |ops|
  {
    if ops == [] then s else After(Apply(s, ops[0]), ops[1..])
  }

  lemma StepKeeps<T>(s: State<T>, op: Op<T>)
    requires Inv(s) && Enabled(s, op)
    ensures Inv(Apply(s, op))
  {
    match op
    case DoSchedule(key, value) => ScheduleKeeps(s, key, value);
    case DoSetConcurrency(next) => SetConcurrencyKeeps(s, next);
    case DoClose => CloseKeeps(s);
    case DoDrain => DrainKeeps(s);
    case DoStart(e) => StartKeeps(s, e);
    case DoFinish(e, succeeded) => FinishKeeps(s, e, succeeded);
  }

  /** Every interleaving of calls and events keeps the invariant. */
  lemma {:induction false} RunKeeps<T>(s: State<T>, ops: seq<Op<T>>)
    requires Inv(s) && Possible(s, ops)
    ensures Inv(After(s, ops))
    decreases |ops|
  {
    if ops != [] {
      StepKeeps(s, ops[0]);
      RunKeeps(Apply(s, ops[0]), ops[1..]);
    }
  }

  // ----- What the invariant says -----

  /** Two runs of one key never overlap. */
  lemma RunsDoNotOverlap<T>(s: State<T>, e: Id, f: Id)
    requires Inv(s) && e in s.running && f in s.running && s.KeyOf(e) == s.KeyOf(f)
    ensures e == f
  {
    assert EntryOk(s, e) && EntryOk(s, f);
    assert Generations(s, s.KeyOf(e));
    if |s.keyed[s.KeyOf(e)]| == 2 {
      assert EntryOk(s, s.keyed[s.KeyOf(e)][1]);
    }
  }

  /** Queued work implies claimed work: the scheduler is never stuck with a queue and nothing in flight. */
  lemma PendingMeansActive<T>(s: State<T>)
    requires Inv(s) && s.pending != []
    ensures s.active > 0
  {
    var e := s.pending[0];
    assert Queued(s, 0) && EntryOk(s, e);
    if s.active < s.concurrency {
      assert !s.First(e);
      assert Generations(s, s.KeyOf(e));
      var first := s.keyed[s.KeyOf(e)][0];
      assert EntryOk(s, first);
      assert first in s.ClaimedLive();
    }
  }

  /** With no callback queued and no work running, every accepted entry has settled. */
  lemma QuiescentMeansServed<T>(s: State<T>)
    requires Inv(s) && s.running == {} && forall e :: e in s.microtasks ==> !s.Live(e)
    ensures s.Idle() && forall e :: 0 <= e < |s.entries| ==> !s.Live(e) && s.entries[e].settles == 1
  {
    forall e | 0 <= e < |s.entries| ensures !(s.Live(e) && s.entries[e].claimed) { assert EntryOk(s, e); }
    assert s.ClaimedLive() == {};
    if s.pending != [] { PendingMeansActive(s); }
    forall e | 0 <= e < |s.entries| ensures !s.Live(e) && s.entries[e].settles == 1 {
      assert EntryOk(s, e);
      assert e !in s.ClaimedLive();
    }
  }

  lemma {:induction false} CancelFromEntries<T>(s: State<T>, from: Id)
    requires from <= |s.entries|
    ensures var t := CancelFrom(s, from);
            && |t.entries| == |s.entries| && t.drains == s.drains && t.waiting == s.waiting && t.concurrency == s.concurrency
            && (forall e :: 0 <= e < |s.entries| ==>
                  t.entries[e] == if from <= e && s.Live(e) && !s.entries[e].started
                                  then s.entries[e].(outcome := Cancelled, settles := s.entries[e].settles + 1) else s.entries[e])
    decreases |s.entries| - from
  {
    if from < |s.entries| {
      CancelFromEntries(if s.Live(from) && !s.entries[from].started then Cancel(s, from) else s, from + 1);
    }
  }

  /** The three ways a step can change an entry: a claim, its own start, and its one settlement. */
  ghost predicate Changed<T>(op: Op<T>, e: Id, before: Entry<T>, after: Entry<T>) {
    && after == before.(claimed := after.claimed, started := after.started, outcome := after.outcome, settles := after.settles)
    && (before.claimed ==> after.claimed)
    && (before.started ==> after.started)
    && (after.started && !before.started ==> op == DoStart(e))
    && (after.outcome == before.outcome ==> after.settles == before.settles)
    && (after.outcome != before.outcome ==>
          && before.outcome.Unsettled? && after.settles == before.settles + 1
          && ((op == DoFinish(e, true) && after.outcome.Resolved?)
              || (op == DoFinish(e, false) && after.outcome.Failed?)
              || (op == DoClose && after.outcome.Cancelled? && !before.started)))
  }

  /** Entry `e` was claimed on the way from `s` to `t`. */
  predicate Claimed<T>(s: State<T>, t: State<T>, e: Id) {
    e < |t.entries| && t.entries[e].claimed && (e >= |s.entries| || !s.entries[e].claimed)
  }

  /**
   Claims stay below the limit, which changes only by being set; drain promises wait for an idle scheduler, and none is
   lost; and entries change only as `Changed` allows.
   */
  ghost predicate Orderly<T>(s: State<T>, op: Op<T>, t: State<T>) {
    && ((exists e :: Claimed(s, t, e)) ==> t.active <= t.concurrency)
    && (t.drains > s.drains ==> t.Idle())
    && t.drains + t.waiting == s.drains + s.waiting + (if op.DoDrain? then 1 else 0)
    && t.concurrency == (if op.DoSetConcurrency? && op.next >= 1 then op.next else s.concurrency)
    && |s.entries| <= |t.entries|
    && forall e :: 0 <= e < |s.entries| ==> Changed(op, e, s.entries[e], t.entries[e])
  }

  lemma PumpedOrderly<T>(s: State<T>, op: Op<T>, t: State<T>)
    requires Base(t) && !t.closed && t.drains == s.drains && t.waiting == s.waiting && |s.entries| <= |t.entries|
    requires !op.DoDrain? && t.concurrency == if op.DoSetConcurrency? && op.next >= 1 then op.next else s.concurrency
    requires forall e :: !Claimed(s, t, e)
    requires forall e :: 0 <= e < |s.entries| ==> Changed(op, e, s.entries[e], t.entries[e])
    ensures Orderly(s, op, Pump(t)) && Orderly(s, op, SettleDrain(Pump(t)))
  {
    PumpKeepsBase(t);
    if Pump(t) == t {
      assert SettleDrain(t).entries == t.entries;
      forall e: Id ensures !Claimed(s, SettleDrain(t), e) { assert !Claimed(s, t, e); }
    }
    forall e | 0 <= e < |s.entries| ensures Changed(op, e, s.entries[e], Pump(t).entries[e]) {
      assert Changed(op, e, s.entries[e], t.entries[e]);
    }
  }

  lemma ScheduleOrderly<T>(s: State<T>, key: string, value: T)
    requires Inv(s)
    ensures Orderly(s, DoSchedule(key, value), Schedule(s, key, value).0)
  {
    if !s.closed {
      var generations := if key in s.keyed then s.keyed[key] else [];
      if key in s.keyed { assert Generations(s, key); }
      if generations == [] || s.entries[generations[|generations| - 1]].started {
        var t := s.(entries := s.entries + [Entry(key, value, false, false, Unsettled, 0)],
                    keyed := s.keyed[key := generations + [|s.entries|]], pending := s.pending + [|s.entries|]);
        AppendKeepsBase(s, key, value, generations);
        assert forall e :: 0 <= e < |s.entries| ==> t.entries[e] == s.entries[e];
        PumpedOrderly(s, DoSchedule(key, value), t);
      }
    }
  }

  lemma FinishOrderly<T>(s: State<T>, e: Id, succeeded: bool)
    requires Inv(s) && e in s.running
    ensures Orderly(s, DoFinish(e, succeeded), Finish(s, e, succeeded)) && !Finish(s, e, succeeded).Live(e)
  {
    FinishedKeepsBase(s, e, succeeded);
    assert EntryOk(s, e);
    var t := Finished(s, e, succeeded);
    forall x | 0 <= x < |s.entries| ensures Changed(DoFinish(e, succeeded), x, s.entries[x], t.entries[x]) {}
    if !s.closed {
      PumpKeepsBase(t);
      PumpedOrderly(s, DoFinish(e, succeeded), t);
    }
  }

  lemma SetConcurrencyOrderly<T>(s: State<T>, next: int)
    requires Inv(s)
    ensures Orderly(s, DoSetConcurrency(next), SetConcurrency(s, next))
  {
    if next >= 1 {
      ConcurrencyKeepsBase(s, next);
      if !s.closed { PumpedOrderly(s, DoSetConcurrency(next), s.(concurrency := next)); }
    }
  }

  lemma CloseOrderly<T>(s: State<T>)
    requires Inv(s)
    ensures Orderly(s, DoClose, Close(s))
  {
    if !s.closed {
      CloseShrinks(s);
      CancelFromEntries(s.(closed := true), 0);
    }
  }

  lemma StepOrderly<T>(s: State<T>, op: Op<T>)
    requires Inv(s) && Enabled(s, op)
    ensures Orderly(s, op, Apply(s, op))
  {
    match op
    case DoSchedule(key, value) => ScheduleOrderly(s, key, value);
    case DoFinish(e, succeeded) => FinishOrderly(s, e, succeeded);
    case DoSetConcurrency(next) => SetConcurrencyOrderly(s, next);
    case DoClose => CloseOrderly(s);
    case DoDrain =>
    case DoStart(e) =>
  }

  /** An entry settles at most once, and then keeps its outcome. */
  lemma SettlesAtMostOnce<T>(s: State<T>, op: Op<T>, e: Id)
    requires Inv(s) && Enabled(s, op) && e < |s.entries|
    ensures e < |Apply(s, op).entries| && Apply(s, op).entries[e].settles <= 1
    ensures !s.Live(e) ==> Apply(s, op).entries[e].outcome == s.entries[e].outcome && Apply(s, op).entries[e].settles == 1
  {
    StepKeeps(s, op);
    StepOrderly(s, op);
    assert Changed(op, e, s.entries[e], Apply(s, op).entries[e]);
    assert EntryOk(s, e) && EntryOk(Apply(s, op), e);
  }

  /**
   No step claims work at or above the limit then in force, not even one that frees a place and takes it again: after
   every claim, what is in flight is within the limit.
   */
  lemma LimitRespected<T>(s: State<T>, op: Op<T>, e: Id)
    requires Inv(s) && Enabled(s, op) && Claimed(s, Apply(s, op), e)
    ensures Apply(s, op).active <= Apply(s, op).concurrency
  {
    StepOrderly(s, op);
  }

  /** A limit that was set is in force at once and until the next one is set. */
  lemma LimitIsInForce<T>(s: State<T>, op: Op<T>)
    requires Inv(s) && Enabled(s, op)
    ensures Apply(s, op).concurrency == if op.DoSetConcurrency? && op.next >= 1 then op.next else s.concurrency
  {
    StepOrderly(s, op);
  }

  /** Every drain promise asked for is resolved or waiting, and in an idle scheduler all of them are resolved. */
  lemma DrainsAreKept<T>(s: State<T>, op: Op<T>)
    requires Inv(s) && Enabled(s, op)
    ensures var t := Apply(s, op);
            && t.drains + t.waiting == s.drains + s.waiting + (if op.DoDrain? then 1 else 0)
            && (t.Idle() ==> t.waiting == 0)
  {
    StepKeeps(s, op);
    StepOrderly(s, op);
  }

  /** A drain promise resolves only when nothing is queued and nothing runs. */
  lemma DrainOnlyWhenIdle<T>(s: State<T>, op: Op<T>)
    requires Inv(s) && Enabled(s, op)
    ensures Apply(s, op).drains > s.drains ==> Apply(s, op).Idle() && Apply(s, op).running == {}
  {
    StepKeeps(s, op);
    StepOrderly(s, op);
    var t := Apply(s, op);
    forall e | e in t.running ensures e in t.ClaimedLive() {
      assert EntryOk(t, e);
    }
  }

  // ----- No lost wake-up -----

  /** An accepted call is answered with an entry of its key that has not started yet. */
  lemma ScheduleAnswersUnstarted<T>(s: State<T>, key: string, value: T)
    requires Inv(s)
    ensures var (t, ticket) := Schedule(s, key, value);
            && (ticket.Rejected? <==> s.closed)
            && (ticket.Accepted? ==> ticket.id < |t.entries| && t.KeyOf(ticket.id) == key && t.Live(ticket.id) && !t.entries[ticket.id].started)
  {
    if !s.closed {
      var generations := if key in s.keyed then s.keyed[key] else [];
      if key in s.keyed { assert Generations(s, key); }
      if generations == [] || s.entries[generations[|generations| - 1]].started {
        AppendKeepsBase(s, key, value, generations);
        PumpKeepsBase(s.(entries := s.entries + [Entry(key, value, false, false, Unsettled, 0)],
                         keyed := s.keyed[key := generations + [|s.entries|]], pending := s.pending + [|s.entries|]));
      }
    }
  }

  /** A started entry stays started, and a settled one keeps its outcome. */
  lemma {:induction false} KeptInRun<T>(s: State<T>, ops: seq<Op<T>>, e: Id)
    requires Inv(s) && Possible(s, ops) && e < |s.entries|
    ensures var t := After(s, ops);
            && e < |t.entries| && t.KeyOf(e) == s.KeyOf(e)
            && (s.entries[e].started ==> t.entries[e].started)
            && (!s.Live(e) ==> t.entries[e].outcome == s.entries[e].outcome)
    decreases |ops|
  {
    if ops != [] {
      StepKeeps(s, ops[0]);
      StepOrderly(s, ops[0]);
      assert Changed(ops[0], e, s.entries[e], Apply(s, ops[0]).entries[e]);
      KeptInRun(Apply(s, ops[0]), ops[1..], e);
    }
  }

  /**
   Between the call that was answered with entry `e` and its settlement by work, `e` starts: every accepted call is
   followed by a run of its key that begins after the call, or by a close.
   */
  lemma {:induction false} SettlementNeedsItsStart<T>(s: State<T>, ops: seq<Op<T>>, e: Id)
    requires Inv(s) && Possible(s, ops) && e < |s.entries| && s.Live(e) && !s.entries[e].started
    ensures var t := After(s, ops);
            && e < |t.entries| && t.KeyOf(e) == s.KeyOf(e)
            && (t.entries[e].outcome.Resolved? || t.entries[e].outcome.Failed? ==> DoStart(e) in ops)
            && (t.entries[e].outcome.Cancelled? ==> DoClose in ops)
    decreases |ops|
  {
    if ops != [] {
      var next := Apply(s, ops[0]);
      StepKeeps(s, ops[0]);
      StepOrderly(s, ops[0]);
      assert Changed(ops[0], e, s.entries[e], next.entries[e]);
      assert EntryOk(s, e);
      if next.Live(e) && !next.entries[e].started {
        SettlementNeedsItsStart(next, ops[1..], e);
      } else {
        KeptInRun(next, ops[1..], e);
        RunKeeps(next, ops[1..]);
        assert EntryOk(After(next, ops[1..]), e);
      }
    }
  }
}
