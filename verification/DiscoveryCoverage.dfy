/**
 No discovery gap (src/runtime/controller.ts:151-163, 247-276, 288-335 with src/runtime/scheduler.ts:44-63): in every run
 the cursor only moves forward, and every update between the start and the cursor was reconciled, successfully, by a run
 of its ticket that began after the update.
 */
module DiscoveryCoverage {
  import opened Basics
  import opened Discovery
  import M = SchedulerModel
  import I = SchedulerInvariant

  // ----- The scan scheduler -----

  /** An invariant scheduler runs exactly its live started entries. */
  lemma RunningOf<T>(s: M.State<T>)
    requires I.Inv(s)
    ensures forall e: nat :: e in s.running <==> e < |s.entries| && s.Live(e) && s.entries[e].started
  {
    forall e: nat ensures e in s.running <==> e < |s.entries| && s.Live(e) && s.entries[e].started {
      if e < |s.entries| { assert I.EntryOk(s, e); }
    }
  }

  ghost predicate Waits<T>(x: M.Entry<T>, key: string, value: T) {
    x.key == key && x.value == value && !x.started && x.outcome.Unsettled?
  }

  /** Scheduling joins a waiting entry or adds one; what it adds waits behind a started entry of its key. */
  lemma ScheduleShape<T>(s: M.State<T>, key: string, value: T)
    requires I.Inv(s)
    ensures var t := M.Schedule(s, key, value).0;
            && I.Inv(t) && t.closed == s.closed && t.running == s.running
            && (|t.entries| == |s.entries|
                || (|t.entries| == |s.entries| + 1 && Waits(t.entries[|s.entries|], key, value)
                    && forall e :: 0 <= e < |s.entries| && s.Live(e) && s.KeyOf(e) == key ==> s.entries[e].started))
            && (forall e :: 0 <= e < |s.entries| ==> t.entries[e] == s.entries[e].(claimed := t.entries[e].claimed))
  {
    I.ScheduleKeeps(s, key, value);
    if !s.closed {
      var generations := if key in s.keyed then s.keyed[key] else [];
      if key in s.keyed { assert I.Generations(s, key); }
      if generations == [] || s.entries[generations[|generations| - 1]].started {
        OlderHaveStarted(s, key);
        I.AppendKeepsBase(s, key, value, generations);
        I.PumpKeepsBase(Appended(s, key, value, generations));
        AppendedEntries(s, key, value, generations);
      }
    }
  }

  function Appended<T>(s: M.State<T>, key: string, value: T, generations: seq<M.Id>): M.State<T> {
    s.(entries := s.entries + [M.Entry(key, value, false, false, M.Unsettled, 0)],
       keyed := s.keyed[key := generations + [|s.entries|]], pending := s.pending + [|s.entries|])
  }

  lemma AppendedEntries<T>(s: M.State<T>, key: string, value: T, generations: seq<M.Id>)
    ensures var t := Appended(s, key, value, generations);
            && |t.entries| == |s.entries| + 1 && Waits(t.entries[|s.entries|], key, value)
            && forall e :: 0 <= e < |s.entries| ==> t.entries[e] == s.entries[e]
  {
  }

  /** When the newest generation of a key has started, every live entry of the key has. */
  lemma OlderHaveStarted<T>(s: M.State<T>, key: string)
    requires I.Inv(s)
    requires key in s.keyed && s.keyed[key] != [] && s.keyed[key][|s.keyed[key]| - 1] < |s.entries|
             ==> s.entries[s.keyed[key][|s.keyed[key]| - 1]].started
    ensures forall e :: 0 <= e < |s.entries| && s.Live(e) && s.KeyOf(e) == key ==> s.entries[e].started
  {
    forall e | 0 <= e < |s.entries| && s.Live(e) && s.KeyOf(e) == key ensures s.entries[e].started {
      assert I.EntryOk(s, e);
      assert I.Generations(s, key);
    }
  }

  ghost predicate ScanEntryOk(scans: M.State<int>, clock: int, cursor: int, e: M.Id)
    requires e < |scans.entries|
  {
    var x := scans.entries[e];
    x.key == REPOSITORY && x.value <= clock && (scans.Live(e) ==> cursor <= x.value)
  }

  /** Older scans carry older windows, and a younger one only waits behind one that has started. */
  ghost predicate Ordered(scans: M.State<int>, e: M.Id, f: M.Id)
    requires e < |scans.entries| && f < |scans.entries|
  {
    scans.entries[e].value <= scans.entries[f].value && (scans.Live(e) && scans.Live(f) ==> scans.entries[e].started)
  }

  ghost predicate ScansOk(scans: M.State<int>, clock: int, cursor: int) {
    && I.Inv(scans)
    && (forall e :: 0 <= e < |scans.entries| ==> ScanEntryOk(scans, clock, cursor, e))
    && (forall e, f :: 0 <= e < f < |scans.entries| ==> Ordered(scans, e, f))
  }

  lemma SweepKeepsScans(scans: M.State<int>, clock: int, cursor: int)
    requires ScansOk(scans, clock, cursor) && cursor <= clock
    ensures var t := M.Schedule(scans, REPOSITORY, clock).0;
            && ScansOk(t, clock, cursor) && t.running == scans.running && |scans.entries| <= |t.entries|
            && forall e :: 0 <= e < |scans.entries| ==> t.entries[e].value == scans.entries[e].value
  {
    ScheduleShape(scans, REPOSITORY, clock);
    var t := M.Schedule(scans, REPOSITORY, clock).0;
    forall e | 0 <= e < |t.entries| ensures ScanEntryOk(t, clock, cursor, e) {
      if e < |scans.entries| { assert ScanEntryOk(scans, clock, cursor, e); }
    }
    forall e, f | 0 <= e < f < |t.entries| ensures Ordered(t, e, f) {
      assert ScanEntryOk(scans, clock, cursor, e);
      if f < |scans.entries| { assert Ordered(scans, e, f); }
    }
  }

  lemma StartKeepsScans(scans: M.State<int>, clock: int, cursor: int, entry: M.Id)
    requires ScansOk(scans, clock, cursor) && I.Enabled(scans, I.DoStart(entry))
    ensures var t := M.Start(scans, entry);
            && ScansOk(t, clock, cursor) && |t.entries| == |scans.entries|
            && (t.running == scans.running || t.running == scans.running + {entry})
            && forall e :: 0 <= e < |scans.entries| ==> t.entries[e].value == scans.entries[e].value
  {
    I.StartKeeps(scans, entry);
    var t := M.Start(scans, entry);
    forall e | 0 <= e < |t.entries| ensures ScanEntryOk(t, clock, cursor, e) { assert ScanEntryOk(scans, clock, cursor, e); }
    forall e, f | 0 <= e < f < |t.entries| ensures Ordered(t, e, f) { assert Ordered(scans, e, f); }
  }

  lemma CloseKeepsScans(scans: M.State<int>, clock: int, cursor: int)
    requires ScansOk(scans, clock, cursor)
    ensures var t := M.Close(scans);
            && ScansOk(t, clock, cursor) && t.running == scans.running && |t.entries| == |scans.entries|
            && forall e :: 0 <= e < |scans.entries| ==> t.entries[e].value == scans.entries[e].value
  {
    I.CloseKeeps(scans);
    var t := M.Close(scans);
    if !scans.closed { I.CancelFromEntries(scans.(closed := true), 0); }
    RunningOf(scans);
    RunningOf(t);
    assert t.running == scans.running;
    forall e | 0 <= e < |t.entries| ensures ScanEntryOk(t, clock, cursor, e) { assert ScanEntryOk(scans, clock, cursor, e); }
    forall e, f | 0 <= e < f < |t.entries| ensures Ordered(t, e, f) { assert Ordered(scans, e, f); }
  }

  /** The only other scan a finishing one can leave behind is younger. */
  lemma OthersAreYounger(scans: M.State<int>, clock: int, cursor: int, entry: M.Id, f: M.Id)
    requires ScansOk(scans, clock, cursor) && entry in scans.running && entry < |scans.entries|
    requires f < |scans.entries| && f != entry && scans.Live(f)
    ensures scans.entries[entry].value <= scans.entries[f].value
  {
    RunningOf(scans);
    if f < entry {
      assert Ordered(scans, f, entry);
      assert ScanEntryOk(scans, clock, cursor, f) && ScanEntryOk(scans, clock, cursor, entry);
      I.RunsDoNotOverlap(scans, f, entry);
    } else {
      assert Ordered(scans, entry, f);
    }
  }

  lemma FinishShape<T>(s: M.State<T>, e: M.Id, succeeded: bool)
    requires I.Inv(s) && e in s.running && e < |s.entries|
    ensures var t := M.Finish(s, e, succeeded);
            && I.Inv(t) && |t.entries| == |s.entries| && t.closed == s.closed
            && t.running == s.running - {e} && !t.Live(e)
            && (forall x :: 0 <= x < |s.entries| ==>
                  t.entries[x].key == s.entries[x].key && t.entries[x].value == s.entries[x].value && t.entries[x].started == s.entries[x].started
                  && (x != e ==> t.entries[x].outcome == s.entries[x].outcome))
  {
    I.FinishKeeps(s, e, succeeded);
    I.FinishedKeepsBase(s, e, succeeded);
    var f := I.Finished(s, e, succeeded);
    if !s.closed { I.PumpKeepsBase(f); }
  }

  lemma FinishKeepsScans(scans: M.State<int>, clock: int, cursor: int, entry: M.Id, succeeded: bool, moved: int)
    requires ScansOk(scans, clock, cursor) && entry in scans.running && entry < |scans.entries|
    requires moved == cursor || moved == scans.entries[entry].value
    ensures ScansOk(M.Finish(scans, entry, succeeded), clock, moved)
  {
    FinishShape(scans, entry, succeeded);
    var t := M.Finish(scans, entry, succeeded);
    forall e | 0 <= e < |t.entries| ensures ScanEntryOk(t, clock, moved, e) {
      assert ScanEntryOk(scans, clock, cursor, e);
      if t.Live(e) { OthersAreYounger(scans, clock, cursor, entry, e); }
    }
    forall e, f | 0 <= e < f < |t.entries| ensures Ordered(t, e, f) { assert Ordered(scans, e, f); }
  }

  // ----- The reconciles -----

  ghost predicate StartsOk(tickets: M.State<string>, starts: map<M.Id, nat>, happened: nat) {
    && I.Inv(tickets)
    && (forall e: nat :: e in starts <==> e < |tickets.entries| && tickets.entries[e].started)
    && (forall e :: e in starts ==> starts[e] <= happened)
  }

  /** Update `i` was followed by a successful reconcile of its ticket. */
  ghost predicate Covered(s: State, i: nat)
    requires i < |s.updates|
  {
    exists e :: e in s.starts && e < |s.tickets.entries| && Reconciled(s, i, e)
  }

  ghost predicate Reconciled(s: State, i: nat, e: M.Id)
    requires i < |s.updates| && e in s.starts && e < |s.tickets.entries|
  {
    s.tickets.KeyOf(e) == s.updates[i].ticket && Succeeded(s, e) && s.starts[e] > i
  }

  ghost predicate Coverage(s: State) {
    forall i :: 0 <= i < |s.updates| && s.startedAt <= s.updates[i].at < s.cursor ==> Covered(s, i)
  }

  /** Entries and starts are only added to, and what settled stays settled. */
  ghost predicate Grows(s: State, t: State) {
    && t.startedAt == s.startedAt && s.updates <= t.updates && |s.tickets.entries| <= |t.tickets.entries|
    && (forall e :: e in s.starts ==> e in t.starts && t.starts[e] == s.starts[e])
    && (forall e :: 0 <= e < |s.tickets.entries| ==>
          t.tickets.KeyOf(e) == s.tickets.KeyOf(e) && (Succeeded(s, e) ==> Succeeded(t, e)))
  }

  lemma CoveredStays(s: State, t: State, i: nat)
    requires Grows(s, t) && i < |s.updates| && Covered(s, i)
    ensures Covered(t, i)
  {
    var e :| e in s.starts && e < |s.tickets.entries| && Reconciled(s, i, e);
    assert Reconciled(t, i, e);
  }

  // ----- The scan in progress -----

  ghost predicate UpdateOk(s: State, i: nat)
    requires i < |s.updates|
  {
    && s.updates[i].at <= s.clock
    && s.updates[i].at - OVERLAP_MS <= s.updates[i].stamp
    && (i > 0 ==> s.updates[i - 1].at <= s.updates[i].at)
  }

  /** An entry answered to a schedule call made when `called` updates had happened: it starts later, if at all. */
  ghost predicate Awaited(s: State, ticket: string, e: M.Id, called: nat) {
    e < |s.tickets.entries| && s.tickets.KeyOf(e) == ticket && (e in s.starts ==> s.starts[e] >= called)
  }

  ghost predicate InWindow(scan: Scan, u: Update) {
    scan.window <= u.at < scan.next
  }

  ghost predicate PhaseOk(s: State, scan: Scan) {
    match scan.phase
    case Discovering(seen) => seen <= |s.updates| && forall i :: seen <= i < |s.updates| ==> s.updates[i].at >= scan.next
    case Reconciling(entries, called) =>
      && called <= |s.updates|
      && (forall t :: t in entries ==> Awaited(s, t, entries[t], called))
      && (forall i :: 0 <= i < |s.updates| && InWindow(scan, s.updates[i]) ==> i < called && s.updates[i].ticket in entries)
  }

  ghost predicate ScanOk(s: State) {
    && ScanRuns(s)
    && (s.scan.Some? ==>
          && s.scan.value.window == s.cursor && s.scan.value.next == s.scans.entries[s.scan.value.entry].value
          && PhaseOk(s, s.scan.value))
  }

  ghost predicate Inv(s: State) {
    && s.startedAt <= s.cursor <= s.clock
    && (forall i :: 0 <= i < |s.updates| ==> UpdateOk(s, i))
    && ScansOk(s.scans, s.clock, s.cursor)
    && StartsOk(s.tickets, s.starts, |s.updates|)
    && (s.tickets.closed ==> s.stopping)
    && ScanOk(s)
    && Coverage(s)
  }

  /** A controller after its bootstrap, which set the cursor to the time it began. */
  function Booted(startedAt: int, updates: seq<Update>, concurrency: int): State {
    State(startedAt, updates, startedAt, startedAt, M.Init(1), None, M.Init(concurrency), map[], false)
  }

  // ----- Scheduling what was found -----

  ghost predicate AllAwaited(tickets: M.State<string>, starts: map<M.Id, nat>, entries: map<string, M.Id>) {
    forall t :: t in entries ==> entries[t] < |tickets.entries| && tickets.KeyOf(entries[t]) == t && entries[t] !in starts
  }

  lemma ScheduleKeepsStarts(tickets: M.State<string>, starts: map<M.Id, nat>, happened: nat, ticket: string)
    requires StartsOk(tickets, starts, happened) && !tickets.closed
    ensures var (t, answer) := M.Schedule(tickets, ticket, ticket);
            && StartsOk(t, starts, happened) && |tickets.entries| <= |t.entries| && !t.closed && SameEntries(tickets, t)
            && answer.Accepted? && answer.id < |t.entries| && t.KeyOf(answer.id) == ticket && answer.id !in starts
  {
    ScheduleShape(tickets, ticket, ticket);
    I.ScheduleAnswersUnstarted(tickets, ticket, ticket);
  }

  ghost predicate SameEntries(s: M.State<string>, t: M.State<string>) {
    && |s.entries| <= |t.entries|
    && forall e :: 0 <= e < |s.entries| ==> t.KeyOf(e) == s.KeyOf(e) && t.entries[e].outcome == s.entries[e].outcome
  }

  lemma AwaitedStay(s: M.State<string>, t: M.State<string>, starts: map<M.Id, nat>, entries: map<string, M.Id>)
    requires SameEntries(s, t) && AllAwaited(s, starts, entries)
    ensures AllAwaited(t, starts, entries)
  {
  }

  lemma OneMoreScheduled(tickets: M.State<string>, starts: map<M.Id, nat>, happened: nat, entries: map<string, M.Id>, ticket: string)
    requires StartsOk(tickets, starts, happened) && !tickets.closed && AllAwaited(tickets, starts, entries)
    ensures var (t, answer) := M.Schedule(tickets, ticket, ticket);
            && StartsOk(t, starts, happened) && !t.closed && SameEntries(tickets, t)
            && answer.Accepted? && AllAwaited(t, starts, entries[ticket := answer.id])
  {
    ScheduleKeepsStarts(tickets, starts, happened, ticket);
    AwaitedStay(tickets, M.Schedule(tickets, ticket, ticket).0, starts, entries);
  }

  lemma SameEntriesTrans(s: M.State<string>, t: M.State<string>, u: M.State<string>)
    requires SameEntries(s, t) && SameEntries(t, u)
    ensures SameEntries(s, u)
  {
    forall e | 0 <= e < |s.entries| ensures u.KeyOf(e) == s.KeyOf(e) && u.entries[e].outcome == s.entries[e].outcome {
      assert t.KeyOf(e) == s.KeyOf(e);
    }
  }

  /** Every ticket found, and no other, has an unstarted entry; older entries are as they were. */
  ghost predicate AllScheduled(tickets: M.State<string>, starts: map<M.Id, nat>, happened: nat, found: seq<string>,
                               t: M.State<string>, entries: map<string, M.Id>)
  {
    && StartsOk(t, starts, happened) && !t.closed && SameEntries(tickets, t)
    && AllAwaited(t, starts, entries) && (forall x :: x in entries <==> x in found)
  }

  lemma ScheduleNext(tickets: M.State<string>, starts: map<M.Id, nat>, happened: nat, rest: seq<string>, ticket: string)
    requires AllScheduled(tickets, starts, happened, rest, ScheduleAll(tickets, rest).0, ScheduleAll(tickets, rest).1)
    ensures AllScheduled(tickets, starts, happened, rest + [ticket], ScheduleAll(tickets, rest + [ticket]).0, ScheduleAll(tickets, rest + [ticket]).1)
  {
    var (t, entries) := ScheduleAll(tickets, rest);
    ScheduleAllSnoc(tickets, rest, ticket);
    OneMoreScheduled(t, starts, happened, entries, ticket);
    SameEntriesTrans(tickets, t, M.Schedule(t, ticket, ticket).0);
  }

  lemma NoneScheduled(tickets: M.State<string>, starts: map<M.Id, nat>, happened: nat)
    requires StartsOk(tickets, starts, happened) && !tickets.closed
    ensures AllScheduled(tickets, starts, happened, [], tickets, map[])
  {
  }

  lemma ScheduleAllSnoc(tickets: M.State<string>, rest: seq<string>, ticket: string)
    ensures var (t, entries) := ScheduleAll(tickets, rest);
            var (u, answer) := M.Schedule(t, ticket, ticket);
            ScheduleAll(tickets, rest + [ticket]) == (u, if answer.Accepted? then entries[ticket := answer.id] else entries)
  {
    assert (rest + [ticket])[..|rest|] == rest;
  }

  lemma {:induction false} ScheduleAllKeeps(tickets: M.State<string>, starts: map<M.Id, nat>, happened: nat, found: seq<string>)
    requires StartsOk(tickets, starts, happened) && !tickets.closed
    ensures var (t, entries) := ScheduleAll(tickets, found); AllScheduled(tickets, starts, happened, found, t, entries)
    decreases |found|
  {
    if found == [] {
      NoneScheduled(tickets, starts, happened);
    } else {
      var rest, ticket := found[..|found| - 1], found[|found| - 1];
      assert found == rest + [ticket];
      ScheduleAllKeeps(tickets, starts, happened, rest);
      ScheduleNext(tickets, starts, happened, rest, ticket);
    }
  }

  // ----- Steps -----

  lemma ElapseKeeps(s: State, milliseconds: int)
    requires Inv(s) && milliseconds >= 0
    ensures Inv(s.(clock := s.clock + milliseconds))
  {
    var t := s.(clock := s.clock + milliseconds);
    forall i | 0 <= i < |t.updates| ensures UpdateOk(t, i) { assert UpdateOk(s, i); }
    forall e | 0 <= e < |t.scans.entries| ensures ScanEntryOk(t.scans, t.clock, t.cursor, e) {
      assert ScanEntryOk(s.scans, s.clock, s.cursor, e);
    }
    SameScan(s, t);
    SameCoverage(s, t);
  }

  /** What concerns the scan in progress reads only the updates, the awaited entries, and the cursor. */
  lemma SameScan(s: State, t: State)
    requires ScanOk(s) && t.scan == s.scan && t.cursor == s.cursor && t.updates == s.updates
    requires t.scans.running == s.scans.running && |s.scans.entries| <= |t.scans.entries|
    requires forall e :: 0 <= e < |s.scans.entries| ==> t.scans.entries[e].value == s.scans.entries[e].value
    requires |s.tickets.entries| <= |t.tickets.entries|
    requires forall e :: 0 <= e < |s.tickets.entries| ==> t.tickets.KeyOf(e) == s.tickets.KeyOf(e)
    requires forall e :: e in t.starts ==> (if e in s.starts then t.starts[e] == s.starts[e] else t.starts[e] == |s.updates|)
    ensures ScanOk(t)
  {
    if s.scan.Some? && s.scan.value.phase.Reconciling? {
      var phase := s.scan.value.phase;
      forall x | x in phase.entries ensures Awaited(t, x, phase.entries[x], phase.called) {
        assert Awaited(s, x, phase.entries[x], phase.called);
      }
    }
  }

  lemma SameCoverage(s: State, t: State)
    requires Coverage(s) && Grows(s, t) && t.updates == s.updates && t.cursor == s.cursor
    ensures Coverage(t)
  {
    forall i | 0 <= i < |t.updates| && t.startedAt <= t.updates[i].at < t.cursor ensures Covered(t, i) {
      CoveredStays(s, t, i);
    }
  }

  lemma HappenKeeps(s: State, ticket: string, stamp: int)
    requires Inv(s) && Enabled(s, Happen(ticket, stamp))
    ensures Inv(Apply(s, Happen(ticket, stamp)))
  {
    var t := Apply(s, Happen(ticket, stamp));
    var n := |s.updates|;
    forall i | 0 <= i < |t.updates| ensures UpdateOk(t, i) {
      if i < n {
        assert UpdateOk(s, i);
        assert t.updates[i] == s.updates[i] && (i > 0 ==> t.updates[i - 1] == s.updates[i - 1]);
      } else if n > 0 {
        assert UpdateOk(s, n - 1);
        assert t.updates[n - 1] == s.updates[n - 1];
      }
    }
    forall i | 0 <= i < |t.updates| && t.startedAt <= t.updates[i].at < t.cursor ensures Covered(t, i) {
      CoveredStays(s, t, i);
    }
    if s.scan.Some? {
      var scan := s.scan.value;
      assert ScanEntryOk(s.scans, s.clock, s.cursor, scan.entry);
      if scan.phase.Reconciling? {
        forall x | x in scan.phase.entries ensures Awaited(t, x, scan.phase.entries[x], scan.phase.called) {
          assert Awaited(s, x, scan.phase.entries[x], scan.phase.called);
        }
        forall i | 0 <= i < |t.updates| && InWindow(scan, t.updates[i]) ensures i < scan.phase.called && t.updates[i].ticket in scan.phase.entries {
          assert t.updates[i] == s.updates[i];
        }
      }
      assert PhaseOk(t, scan);
    }
  }

  lemma SweepKeeps(s: State)
    requires Inv(s)
    ensures Inv(Apply(s, Sweep))
  {
    var t := Apply(s, Sweep);
    SweepKeepsScans(s.scans, s.clock, s.cursor);
    forall i | 0 <= i < |t.updates| ensures UpdateOk(t, i) { assert UpdateOk(s, i); }
    SameScan(s, t);
    SameCoverage(s, t);
  }

  lemma StartScanKeeps(s: State, entry: M.Id)
    requires Inv(s) && Enabled(s, StartScan(entry))
    ensures Inv(Apply(s, StartScan(entry)))
  {
    var t := Apply(s, StartScan(entry));
    StartKeepsScans(s.scans, s.clock, s.cursor, entry);
    forall i | 0 <= i < |t.updates| ensures UpdateOk(t, i) { assert UpdateOk(s, i); }
    SameCoverage(s, t);
    RunningOf(s.scans);
    RunningOf(t.scans);
    if entry in t.scans.running {
      OneScan(s, t, entry);
    } else {
      SameScan(s, t);
    }
  }

  /** A scan starts only when no other is in progress. */
  lemma OneScan(s: State, t: State, entry: M.Id)
    requires Inv(s) && Enabled(s, StartScan(entry)) && t == Apply(s, StartScan(entry)) && entry in t.scans.running
    requires ScansOk(t.scans, s.clock, s.cursor) && |t.scans.entries| == |s.scans.entries|
    requires t.scans.running == s.scans.running || t.scans.running == s.scans.running + {entry}
    requires forall e :: 0 <= e < |s.scans.entries| ==> t.scans.entries[e].value == s.scans.entries[e].value
    ensures ScanOk(t)
  {
    assert I.EntryOk(s.scans, entry);
    assert entry !in s.scans.running;
    if s.scan.Some? {
      var other := s.scan.value.entry;
      assert other in t.scans.running;
      assert ScanEntryOk(t.scans, s.clock, s.cursor, entry) && ScanEntryOk(t.scans, s.clock, s.cursor, other);
      I.RunsDoNotOverlap(t.scans, entry, other);
    }
    assert t.scans.running == {entry};
  }

  lemma DiscoveredKeeps(s: State, found: seq<string>)
    requires Inv(s) && Enabled(s, Discovered(found)) && !s.stopping
    ensures Inv(Apply(s, Discovered(found)))
  {
    var t := Apply(s, Discovered(found));
    var scan := s.scan.value;
    ScheduleAllKeeps(s.tickets, s.starts, |s.updates|, found);
    forall i | 0 <= i < |t.updates| ensures UpdateOk(t, i) { assert UpdateOk(s, i); }
    SameCoverage(s, t);
    var phase := t.scan.value.phase;
    forall x | x in phase.entries ensures Awaited(t, x, phase.entries[x], phase.called) {}
    forall i | 0 <= i < |t.updates| && InWindow(t.scan.value, t.updates[i]) ensures i < phase.called && t.updates[i].ticket in phase.entries {
      assert UpdateOk(s, i);
    }
    assert PhaseOk(t, t.scan.value);
  }

  /** Once the scan is over nothing depends on it but the cursor. */
  lemma ScanOver(s: State, t: State)
    requires Inv(s) && t == s.(cursor := t.cursor, scans := t.scans, scan := None)
    requires s.cursor <= t.cursor <= s.clock && ScansOk(t.scans, s.clock, t.cursor) && t.scans.running == {}
    requires forall i :: 0 <= i < |s.updates| && s.cursor <= s.updates[i].at < t.cursor ==> Covered(s, i)
    ensures Inv(t)
  {
    forall i | 0 <= i < |t.updates| ensures UpdateOk(t, i) { assert UpdateOk(s, i); }
    forall i | 0 <= i < |t.updates| && t.startedAt <= t.updates[i].at < t.cursor ensures Covered(t, i) {
      assert Covered(s, i);
      CoveredStays(s, t, i);
    }
  }

  lemma FinishScanKeeps(s: State, moved: int, succeeded: bool)
    requires Inv(s) && s.scan.Some? && (moved == s.cursor || moved == s.scan.value.next)
    requires forall i :: 0 <= i < |s.updates| && s.cursor <= s.updates[i].at < moved ==> Covered(s, i)
    ensures Inv(FinishScan(s.(cursor := moved), succeeded)) && s.cursor <= moved
  {
    var entry := s.scan.value.entry;
    assert ScanEntryOk(s.scans, s.clock, s.cursor, entry);
    ScanLives(s);
    FinishKeepsScans(s.scans, s.clock, s.cursor, entry, succeeded, moved);
    FinishShape(s.scans, entry, succeeded);
    ScanOver(s, FinishScan(s.(cursor := moved), succeeded));
  }

  lemma ScanLives(s: State)
    requires Inv(s) && s.scan.Some?
    ensures s.scans.Live(s.scan.value.entry)
  {
    RunningOf(s.scans);
    assert s.scan.value.entry in s.scans.running;
  }

  /** When every reconcile a scan waited for has succeeded, its whole window is covered. */
  lemma DoneCovers(s: State, i: nat)
    requires Inv(s) && Enabled(s, ScanDone) && i < |s.updates| && InWindow(s.scan.value, s.updates[i])
    ensures Covered(s, i)
  {
    var phase := s.scan.value.phase;
    var ticket := s.updates[i].ticket;
    var e := phase.entries[ticket];
    assert Awaited(s, ticket, e, phase.called) && Succeeded(s, e);
    assert I.EntryOk(s.tickets, e);
    assert Reconciled(s, i, e);
  }

  lemma TicketKeeps(s: State, op: I.Op<string>)
    requires Inv(s) && Enabled(s, TicketOp(op))
    ensures Inv(Apply(s, TicketOp(op)))
  {
    var t := Apply(s, TicketOp(op));
    TicketStepKeeps(s, op);
    forall i | 0 <= i < |t.updates| ensures UpdateOk(t, i) { assert UpdateOk(s, i); }
    SameScan(s, t);
    SameCoverage(s, t);
  }

  /** What one step does to the entries of a scheduler, as far as coverage is concerned. */
  lemma EntriesAfter<T>(s: M.State<T>, op: I.Op<T>)
    requires I.Inv(s) && I.Enabled(s, op)
    ensures var t := I.Apply(s, op);
            && I.Inv(t) && |s.entries| <= |t.entries|
            && (forall e :: 0 <= e < |s.entries| ==>
                  && t.KeyOf(e) == s.KeyOf(e)
                  && (s.entries[e].outcome.Resolved? ==> t.entries[e].outcome.Resolved?)
                  && (s.entries[e].started ==> t.entries[e].started)
                  && (t.entries[e].started && !s.entries[e].started ==> op == I.DoStart(e)))
            && (forall e :: |s.entries| <= e < |t.entries| ==> !t.entries[e].started)
  {
    I.StepKeeps(s, op);
    I.StepOrderly(s, op);
    NewEntriesWait(s, op);
    var t := I.Apply(s, op);
    forall e | 0 <= e < |s.entries|
      ensures t.KeyOf(e) == s.KeyOf(e) && (s.entries[e].outcome.Resolved? ==> t.entries[e].outcome.Resolved?)
      ensures (s.entries[e].started ==> t.entries[e].started) && (t.entries[e].started && !s.entries[e].started ==> op == I.DoStart(e))
    {
      assert I.Changed(op, e, s.entries[e], t.entries[e]);
    }
  }

  /** A start callback that finds its entry unstarted either starts it or leaves it. */
  lemma StartedByCallback<T>(s: M.State<T>, e: M.Id)
    requires I.Inv(s) && I.Enabled(s, I.DoStart(e))
    ensures var t := I.Apply(s, I.DoStart(e));
            (e in t.running && e !in s.running) <==> (t.entries[e].started && !s.entries[e].started)
  {
    assert I.EntryOk(s, e);
    I.StartKeeps(s, e);
    assert I.EntryOk(M.Start(s, e), e);
  }

  lemma TicketStepKeeps(s: State, op: I.Op<string>)
    requires StartsOk(s.tickets, s.starts, |s.updates|) && (s.tickets.closed ==> s.stopping)
    requires I.Enabled(s.tickets, op) && !op.DoClose? && !op.DoDrain?
    ensures var t := TicketStep(s, op);
            && StartsOk(t.tickets, t.starts, |s.updates|) && Grows(s, t) && (t.tickets.closed ==> t.stopping)
            && forall e :: e in t.starts ==> (if e in s.starts then t.starts[e] == s.starts[e] else t.starts[e] == |s.updates|)
  {
    EntriesAfter(s.tickets, op);
    if op.DoStart? { StartedByCallback(s.tickets, op.id); }
    NotClosing(s.tickets, op);
    StartsAfter(s, op);
  }

  lemma StartsAfter(s: State, op: I.Op<string>)
    requires StartsOk(s.tickets, s.starts, |s.updates|) && I.Enabled(s.tickets, op)
    ensures StartsOk(TicketStep(s, op).tickets, TicketStep(s, op).starts, |s.updates|)
    ensures forall e :: e in s.starts ==> e in TicketStep(s, op).starts && TicketStep(s, op).starts[e] == s.starts[e]
    ensures forall e :: e in TicketStep(s, op).starts && e !in s.starts ==> TicketStep(s, op).starts[e] == |s.updates|
  {
    EntriesAfter(s.tickets, op);
    if op.DoStart? { StartedByCallback(s.tickets, op.id); }
  }

  lemma NewEntriesWait<T>(s: M.State<T>, op: I.Op<T>)
    requires I.Inv(s) && I.Enabled(s, op)
    ensures forall e :: |s.entries| <= e < |I.Apply(s, op).entries| ==> !I.Apply(s, op).entries[e].started
  {
    match op
    case DoSchedule(key, value) => ScheduleShape(s, key, value);
    case DoFinish(e, succeeded) => FinishShape(s, e, succeeded);
    case DoSetConcurrency(next) =>
      if next >= 1 && !s.closed {
        I.ConcurrencyKeepsBase(s, next);
        I.PumpKeepsBase(s.(concurrency := next));
      }
    case DoClose => if !s.closed { I.CancelFromEntries(s.(closed := true), 0); }
    case _ =>
  }

  lemma NotClosing<T>(s: M.State<T>, op: I.Op<T>)
    requires I.Inv(s) && I.Enabled(s, op) && !op.DoClose?
    ensures I.Apply(s, op).closed == s.closed
  {
    match op
    case DoSchedule(key, value) => ScheduleShape(s, key, value);
    case DoFinish(e, succeeded) => FinishShape(s, e, succeeded);
    case DoSetConcurrency(next) =>
      if next >= 1 {
        I.ConcurrencyKeepsBase(s, next);
        if !s.closed { I.PumpKeepsBase(s.(concurrency := next)); }
      }
    case _ =>
  }

  lemma StopKeeps(s: State)
    requires Inv(s)
    ensures Inv(Apply(s, Stop))
  {
    var t := Apply(s, Stop);
    CloseKeepsScans(s.scans, s.clock, s.cursor);
    I.CloseKeeps(s.tickets);
    if !s.tickets.closed { I.CancelFromEntries(s.tickets.(closed := true), 0); }
    forall i | 0 <= i < |t.updates| ensures UpdateOk(t, i) { assert UpdateOk(s, i); }
    SameScan(s, t);
    SameCoverage(s, t);
  }

  /** Every step keeps the invariant, and none moves the cursor back. */
  lemma StepKeeps(s: State, e: Event)
    requires Inv(s) && Enabled(s, e)
    ensures Inv(Apply(s, e)) && s.cursor <= Apply(s, e).cursor && Apply(s, e).startedAt == s.startedAt
  {
    match e
    case Elapse(ms) => ElapseKeeps(s, ms);
    case Happen(ticket, stamp) => HappenKeeps(s, ticket, stamp);
    case Sweep => SweepKeeps(s);
    case StartScan(entry) => StartScanKeeps(s, entry);
    case Discovered(found) =>
      if s.stopping { FinishScanKeeps(s, s.cursor, true); } else { DiscoveredKeeps(s, found); }
    case ScanDone =>
      forall i | 0 <= i < |s.updates| && s.cursor <= s.updates[i].at < s.scan.value.next ensures Covered(s, i) {
        DoneCovers(s, i);
      }
      FinishScanKeeps(s, s.scan.value.next, true);
    case ScanFails => FinishScanKeeps(s, s.cursor, false);
    case TicketOp(op) => TicketKeeps(s, op);
    case Stop => StopKeeps(s);
  }

  // ----- Progress -----

  /** The cursor moves to the time of the sweep behind a scan when all the scan waited for has succeeded, and at no other step. */
  lemma CursorFollowsScans(s: State, e: Event)
    requires Inv(s) && Enabled(s, e)
    ensures Apply(s, e).cursor == if e.ScanDone? then s.scans.entries[s.scan.value.entry].value else s.cursor
    ensures e.ScanDone? ==> Apply(s, e).scan.None? && !Apply(s, e).scans.Live(s.scan.value.entry)
  {
    if e.ScanDone? {
      ScanLives(s);
      FinishShape(s.scans, s.scan.value.entry, true);
    }
  }

  /** A sweep is answered with a scan that has not started: its own, which carries the time of the sweep, or an earlier one. */
  lemma SweepCarriesItsTime(s: State)
    requires Inv(s) && !s.scans.closed
    ensures var (t, ticket) := M.Schedule(s.scans, REPOSITORY, s.clock);
            && ticket.Accepted? && ticket.id < |t.entries| && t.Live(ticket.id) && !t.entries[ticket.id].started
            && (ticket.id >= |s.scans.entries| ==> t.entries[ticket.id].value == s.clock)
  {
    ScheduleShape(s.scans, REPOSITORY, s.clock);
    I.ScheduleAnswersUnstarted(s.scans, REPOSITORY, s.clock);
  }

  /** Every ticket a scan found, and no other, is waited for. */
  lemma FoundAreAwaited(s: State, found: seq<string>)
    requires Inv(s) && Enabled(s, Discovered(found)) && !s.stopping
    ensures var t := Apply(s, Discovered(found));
            && t.scan.Some? && t.scan.value.phase.Reconciling?
            && forall x :: x in t.scan.value.phase.entries <==> x in found
  {
    ScheduleAllKeeps(s.tickets, s.starts, |s.updates|, found);
  }

  // ----- Runs -----

  ghost predicate Possible(s: State, events: seq<Event>)
    requires ScanRuns(s)
    decreases |events|
  {
    events == [] || (Enabled(s, events[0]) && ScanRuns(Apply(s, events[0])) && Possible(Apply(s, events[0]), events[1..]))
  }

  ghost function After(s: State, events: seq<Event>): State
    requires ScanRuns(s) && Possible(s, events)
    decreases |events|
  {
    if events == [] then s else After(Apply(s, events[0]), events[1..])
  }

  lemma {:induction false} RunKeeps(s: State, events: seq<Event>)
    requires Inv(s) && Possible(s, events)
    ensures Inv(After(s, events)) && s.cursor <= After(s, events).cursor && After(s, events).startedAt == s.startedAt
    decreases |events|
  {
    if events != [] {
      StepKeeps(s, events[0]);
      RunKeeps(Apply(s, events[0]), events[1..]);
    }
  }

  lemma BootedHolds(startedAt: int, updates: seq<Update>, concurrency: int)
    requires concurrency >= 1 && forall i :: 0 <= i < |updates| ==> UpdateOk(Booted(startedAt, updates, concurrency), i)
    ensures Inv(Booted(startedAt, updates, concurrency))
  {
    I.InitHolds<int>(1);
    I.InitHolds<string>(concurrency);
  }

  /**
   Whatever sweeps, scans, failures, reconciles, concurrency changes and stops follow the bootstrap: the cursor never
   moves back, and each update since the bootstrap began and before the cursor is covered.
   */
  lemma NoDiscoveryGap(startedAt: int, updates: seq<Update>, concurrency: int, events: seq<Event>, i: nat)
    requires concurrency >= 1 && forall k :: 0 <= k < |updates| ==> UpdateOk(Booted(startedAt, updates, concurrency), k)
    requires Possible(Booted(startedAt, updates, concurrency), events)
    ensures var s := After(Booted(startedAt, updates, concurrency), events);
            && startedAt <= s.cursor
            && (i < |s.updates| && startedAt <= s.updates[i].at < s.cursor ==> Covered(s, i))
  {
    BootedHolds(startedAt, updates, concurrency);
    RunKeeps(Booted(startedAt, updates, concurrency), events);
  }
}
