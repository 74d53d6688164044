/**
 The discovery cursor of one repository (src/runtime/controller.ts:151-163, 247-276, 288-335), on top of the two schedulers of
 `SchedulerModel`: scans of the repository, and reconciles of its tickets. The clock never goes back. That the tickets a
 scan gets back from the third scheduler are its own is shown in `ScanCalls`.
 */
module Discovery {
  import opened Basics
  import M = SchedulerModel
  import I = SchedulerInvariant

  const REPOSITORY := "repository"

  /** How far before the window a discovery reaches, and how far a provider's stamp may be off. */
  const OVERLAP_MS := 1_000

  /** A ticket update: when it happened, and the time the provider stamps on it. */
  datatype Update = Update(ticket: string, at: int, stamp: int)

  datatype Phase =
    | Discovering(seen: nat)                            // updates that had happened when the scan began
    | Reconciling(entries: map<string, M.Id>, called: nat)  // the schedule calls, and the updates by then

  datatype Scan = Scan(entry: M.Id, window: int, next: int, phase: Phase)

  datatype State = State(
    clock: int, updates: seq<Update>,
    startedAt: int, cursor: int,
    scans: M.State<int>,             // a scan carries the window start it will set
    scan: Option<Scan>,
    tickets: M.State<string>,
    starts: map<M.Id, nat>,          // updates that had happened when a reconcile started
    stopping: bool)

  datatype Event =
    | Elapse(milliseconds: int)
    | Happen(ticket: string, stamp: int)
    | Sweep
    | StartScan(entry: M.Id)
    | Discovered(found: seq<string>)
    | ScanDone
    | ScanFails
    | TicketOp(op: I.Op<string>)
    | Stop

  /** Everything updated in the window, with its overlap, that had happened when the discovery began. */
  ghost predicate Reports(s: State, scan: Scan, found: seq<string>)
    requires scan.phase.Discovering?
  {
    forall i :: 0 <= i < scan.phase.seen && i < |s.updates| && s.updates[i].stamp >= scan.window - OVERLAP_MS ==> s.updates[i].ticket in found
  }

  predicate Succeeded(s: State, e: M.Id) {
    e < |s.tickets.entries| && s.tickets.entries[e].outcome.Resolved?
  }

  ghost predicate Enabled(s: State, e: Event) {
    match e
    case Elapse(ms) => ms >= 0
    case Happen(_, stamp) => s.clock - OVERLAP_MS <= stamp <= s.clock + OVERLAP_MS
    case Sweep => true
    case StartScan(entry) => I.Enabled(s.scans, I.DoStart(entry))
    case Discovered(found) => s.scan.Some? && s.scan.value.phase.Discovering? && Reports(s, s.scan.value, found)
    case ScanDone => s.scan.Some? && s.scan.value.phase.Reconciling? && forall t :: t in s.scan.value.phase.entries ==> Succeeded(s, s.scan.value.phase.entries[t])
    case ScanFails => s.scan.Some?
    case TicketOp(op) => I.Enabled(s.tickets, op) && !op.DoClose? && !op.DoDrain?
    case Stop => true
  }

  /** `scheduleTicket` for each ticket found, in turn. */
  function ScheduleAll(tickets: M.State<string>, found: seq<string>): (M.State<string>, map<string, M.Id>)
    decreases |found|
  {
    if found == [] then (tickets, map[])
    else
      var before := ScheduleAll(tickets, found[..|found| - 1]);
      var t := found[|found| - 1];
      var (after, ticket) := M.Schedule(before.0, t, t);
      (after, if ticket.Accepted? then before.1[t := ticket.id] else before.1)
  }

  function FinishScan(s: State, succeeded: bool): State
    requires s.scan.Some? && I.Enabled(s.scans, I.DoFinish(s.scan.value.entry, succeeded))
  {
    s.(scans := M.Finish(s.scans, s.scan.value.entry, succeeded), scan := None)
  }

  function StartScanStep(s: State, entry: M.Id): State
    requires I.Enabled(s.scans, I.DoStart(entry))
  {
    var scans := M.Start(s.scans, entry);
    if entry in scans.running
    then s.(scans := scans, scan := Some(Scan(entry, s.cursor, scans.entries[entry].value, Discovering(|s.updates|))))
    else s.(scans := scans)
  }

  /** Behind `discoverRepository`: a controller that is stopping leaves the cursor, others reconcile what was found. */
  function DiscoveredStep(s: State, found: seq<string>): State
    requires s.scan.Some? && I.Enabled(s.scans, I.DoFinish(s.scan.value.entry, true))
  {
    if s.stopping then FinishScan(s, true)
    else
      var (tickets, entries) := ScheduleAll(s.tickets, found);
      s.(tickets := tickets, scan := Some(s.scan.value.(phase := Reconciling(entries, |s.updates|))))
  }

  function TicketStep(s: State, op: I.Op<string>): State
    requires I.Enabled(s.tickets, op)
  {
    var tickets := I.Apply(s.tickets, op);
    if op.DoStart? && op.id in tickets.running && op.id !in s.tickets.running
    then s.(tickets := tickets, starts := s.starts[op.id := |s.updates|])
    else s.(tickets := tickets)
  }

  /** The running scan is the one the controller is busy with. */
  ghost predicate ScanRuns(s: State) {
    if s.scan.Some? then s.scan.value.entry < |s.scans.entries| && s.scans.running == {s.scan.value.entry} else s.scans.running == {}
  }

  ghost function Apply(s: State, e: Event): State
    requires ScanRuns(s) && Enabled(s, e)
  {
    match e
    case Elapse(ms) => s.(clock := s.clock + ms)
    case Happen(ticket, stamp) => s.(updates := s.updates + [Update(ticket, s.clock, stamp)])
    case Sweep => s.(scans := M.Schedule(s.scans, REPOSITORY, s.clock).0)
    case StartScan(entry) => StartScanStep(s, entry)
    case Discovered(found) => DiscoveredStep(s, found)
    case ScanDone => FinishScan(s.(cursor := s.scan.value.next), true)
    case ScanFails => FinishScan(s, false)
    case TicketOp(op) => TicketStep(s, op)
    case Stop => s.(stopping := true, scans := M.Close(s.scans), tickets := M.Close(s.tickets))
  }
}
