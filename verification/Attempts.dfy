/**
 Attempts of one flow under crashes and races (src/runtime/attempt-runner.ts:87-128, 139-499, 621-642, 720-744), with the
 writers of src/runtime/reconcile.ts that touch the same control state. Each step below is the code between two awaits,
 and each persisted write is a compare-and-swap of the whole control state. Runners are numbered and any number of them
 may be at work on the flow, in one process or in several: the `active` map of a process does not by itself exclude two,
 since `start` awaits between looking the flow up and entering it (88-118), and nothing here relies on it.
 */
module Attempts {
  import opened Basics
  import opened Execution

  datatype Pc =
    | Entering                    // series chosen, its binding perhaps not stored
    | Resolving                   // looking for a prepared result of a started attempt
    | Resuming                    // an unfinished attempt of an earlier run is still to be failed
    | Looping                     // at the head of the retry loop
    | Counted(attempt: AttemptId)   // the counting write succeeded, the harness has not been launched
    | Running(attempt: AttemptId)
    | Finishing(attempt: AttemptId)
    | Unterminated                // its harness would not die; the runner keeps the flow occupied

  datatype Runner = Runner(
    stage: Stage,
    control: Control,             // as the runner last read or wrote it
    series: Series,
    unsaved: bool,                // the series is new and has not been stored
    cancelled: bool,
    pc: Pc)

  /**
   Bookkeeping for the claims: a budget epoch begins whenever the consumed count starts over, and whenever a series comes
   to be stored where none was. It knows what was consumed when it began, the attempts its counting writes added, and the
   limit of its series.
   */
  datatype Epoch = Epoch(base: nat, attempts: seq<AttemptId>, limit: nat)

  datatype State = State(
    control: Control,             // the stored control state
    runners: map<nat, Runner>,    // by number; `process` in the events below
    nextId: AttemptId,
    launches: seq<AttemptId>,     // harness launches, in order
    epochs: seq<Epoch>)

  /** Other writers of the control state, each itself a compare-and-swap. */
  datatype Change =
    | Transition(reset: bool, record: bool, selfTransition: bool)   // a flow transition and its budget actions
    | KeepSeries
    | DropSeries
    | ClearCurrent
    | MarkCurrent(status: Status)

  datatype Event =
    | Start(process: nat, control: Control, stage: Stage, maxAttempts: nat, id: nat)
    | Cancel(process: nat)
    | Bind(process: nat)
    | Resolve(process: nat, retained: bool)
    | Resume(process: nat)
    | Count(process: nat)
    | Launch(process: nat)
    | Ended(process: nat)
    | Finish(process: nat)
    | Fail(process: nat, retryable: bool)
    | Undying(process: nat)
    | Quit(process: nat)                              // returns, throws, or the process crashes
    | Other(change: Change, stateId: string)
    | Recover(series: Option<Series>, stateId: string)    // recordRecovery with a replacement control state

  // ----- Starting -----

  /** `matchingSeries` */
  predicate Matches(series: Option<Series>, stage: Stage) {
    series.Some? && series.value.stage == stage
  }

  datatype Entry = Refused | Settled | Entered(runner: Runner)

  /** `start` up to the launch of `runSeries`. */
  function Enter(control: Control, stage: Stage, maxAttempts: nat, id: nat): Entry {
    if stage.stateId != control.stateId then Refused
    else if Matches(control.series, stage) then
      var series := control.series.value;
      var configured := if series.bound then series.maxAttempts else maxAttempts;
      if series.maxAttempts != configured then Refused
      else if series.current.Some? && (series.current.value.status.Succeeded? || series.current.value.status.Cancelled?) then Settled
      else Entered(Runner(stage, control, series, false, false, Entering))
    else Entered(Runner(stage, control, Series(id, stage, true, maxAttempts, 0, None), true, false, Entering))
  }

  // ----- Persisting -----

  /** `persist`: stores the successor of the control state the runner holds, if that is still the stored one. */
  function Persist(s: State, r: Runner, series: Series): Option<(State, Runner)> {
    PersistAt(s, r, series, r.control.stateId, r.control.resumeStateId)
  }

  function PersistAt(s: State, r: Runner, series: Series, stateId: string, resume: Option<string>): Option<(State, Runner)> {
    if s.control != r.control then None
    else
      var next := Control(r.control.flowInstanceId, r.control.sequence + 1, stateId, resume, Some(series));
      Some((s.(control := next), r.(control := next, series := series, unsaved := false)))
  }

  function MarkFailed(series: Series): Series {
    if series.current.None? then series
    else series.(current := Some(series.current.value.(status := Status.Failed)))
  }

  /** The runner is done: `active` forgets it. */
  function Leave(s: State, p: nat): State {
    s.(runners := s.runners - {p})
  }

  function Put(s: State, p: nat, r: Runner): State {
    s.(runners := s.runners[p := r])
  }

  /** A write after which the runner goes on at `pc`, or leaves when the write is refused. */
  function PersistThen(s: State, p: nat, r: Runner, series: Series, pc: Pc): State {
    var written := Persist(s, r, series);
    if written.None? then Leave(s, p) else Put(written.value.0, p, written.value.1.(pc := pc))
  }

  /** `persistBlocked`; the runner leaves either way. */
  function PersistBlocked(s: State, p: nat, r: Runner, series: Series): State {
    var written := PersistAt(s, r, MarkFailed(series), "blocked", Some(r.stage.stateId));
    Leave(if written.None? then s else written.value.0, p)
  }

  // ----- The steps of a runner -----

  function BindStep(s: State, p: nat, r: Runner): State {
    if r.series.bound then Put(s, p, r.(pc := Resolving))
    else PersistThen(s, p, r, r.series.(bound := true), Resolving)
  }

  predicate InFlight(series: Series) {
    series.current.Some? && series.current.value.status.Started?
  }

  function ResolveStep(s: State, p: nat, r: Runner, retained: bool): State {
    if InFlight(r.series) && retained then Put(s, p, r.(pc := Finishing(r.series.current.value.id)))
    else Put(s, p, r.(pc := Resuming))
  }

  function ResumeStep(s: State, p: nat, r: Runner): State {
    if InFlight(r.series) then
      if r.series.consumed >= r.series.maxAttempts then PersistBlocked(s, p, r, MarkFailed(r.series))
      else PersistThen(s, p, r, MarkFailed(r.series), Looping)
    else if r.series.current.Some? && r.series.current.value.status.Failed? && r.series.consumed >= r.series.maxAttempts then
      PersistBlocked(s, p, r, r.series)
    else Put(s, p, r.(pc := Looping))
  }

  /** The write that counts an attempt before it is launched. */
  function CountStep(s: State, p: nat, r: Runner): State {
    if r.cancelled || r.series.consumed >= r.series.maxAttempts then Leave(s, p)
    else
      var id := s.nextId;
      var counted := r.series.(consumed := r.series.consumed + 1, current := Some(Attempt(id, Started)));
      var written := Persist(s.(nextId := id + 1), r, counted);
      if written.None? then Leave(s.(nextId := id + 1), p)
      else Put(written.value.0.(epochs := CountIn(s.epochs, id, r)), p, written.value.1.(pc := Counted(id)))
  }

  function CountIn(epochs: seq<Epoch>, id: AttemptId, r: Runner): seq<Epoch> {
    if r.unsaved || epochs == [] then epochs + [Epoch(0, [id], r.series.maxAttempts)]
    else epochs[|epochs| - 1 := epochs[|epochs| - 1].(attempts := epochs[|epochs| - 1].attempts + [id])]
  }

  /** `recordFailure`, and where the runner goes on when the failure may be retried. */
  function FailStep(s: State, p: nat, r: Runner, retryable: bool): State {
    if !retryable || r.series.consumed >= r.series.maxAttempts then PersistBlocked(s, p, r, MarkFailed(r.series))
    else PersistThen(s, p, r, MarkFailed(r.series), if r.pc.Finishing? then Resuming else Looping)
  }

  /** The success write of `finish`; the runner leaves either way. */
  function FinishStep(s: State, p: nat, r: Runner): State
    requires r.pc.Finishing?
  {
    var written := Persist(s, r, r.series.(current := Some(Attempt(r.pc.attempt, Succeeded))));
    Leave(if written.None? then s else written.value.0, p)
  }

  // ----- The other writers -----

  /** `applyAttemptActions` */
  function ApplyAttemptActions(series: Option<Series>, reset: bool, record: bool, selfTransition: bool): Option<Series> {
    if series.None? then None
    else if reset then Some(series.value.(consumed := 0, current := None))
    else if selfTransition && record then Some(series.value.(current := None))
    else series
  }

  function ChangeSeries(series: Option<Series>, change: Change): Option<Series> {
    match change
    case Transition(reset, record, selfTransition) => ApplyAttemptActions(series, reset, record, selfTransition)
    case KeepSeries => series
    case DropSeries => None
    case ClearCurrent => ApplyAttemptActions(series, false, true, true)
    case MarkCurrent(status) =>
      if series.Some? && series.value.current.Some? then Some(series.value.(current := Some(series.value.current.value.(status := status)))) else series
  }

  function Store(s: State, series: Option<Series>, stateId: string): State {
    s.(control := Control(s.control.flowInstanceId, s.control.sequence + 1, stateId, s.control.resumeStateId, series))
  }

  predicate Resets(change: Change) {
    change.Transition? && change.reset
  }

  function OtherStep(s: State, change: Change, stateId: string): State {
    var t := Store(s, ChangeSeries(s.control.series, change), stateId);
    if change.DropSeries? then t.(epochs := s.epochs + [Epoch(0, [], 0)])
    else if Resets(change) then
      t.(epochs := s.epochs + [Epoch(0, [], if s.control.series.Some? then s.control.series.value.maxAttempts else 0)])
    else t
  }

  function RecoverStep(s: State, series: Option<Series>, stateId: string): State {
    var t := Store(s, series, stateId);
    if series.None? then t.(epochs := s.epochs + [Epoch(0, [], 0)])
    else if s.control.series.None? then t.(epochs := s.epochs + [Epoch(series.value.consumed, [], series.value.maxAttempts)])
    else t
  }

  // ----- The machine -----

  predicate At(s: State, p: nat, accepts: Pc -> bool) {
    p in s.runners && accepts(s.runners[p].pc)
  }

  predicate Enabled(s: State, e: Event) {
    match e
    case Start(p, _, _, _, _) => p !in s.runners
    case Cancel(p) => p in s.runners
    case Bind(p) => At(s, p, (pc: Pc) => pc.Entering?)
    case Resolve(p, _) => At(s, p, (pc: Pc) => pc.Resolving?)
    case Resume(p) => At(s, p, (pc: Pc) => pc.Resuming?)
    case Count(p) => At(s, p, (pc: Pc) => pc.Looping?)
    case Launch(p) => At(s, p, (pc: Pc) => pc.Counted?)
    case Ended(p) => At(s, p, (pc: Pc) => pc.Running?)
    case Finish(p) => At(s, p, (pc: Pc) => pc.Finishing?) && !s.runners[p].cancelled
    case Fail(p, _) => At(s, p, (pc: Pc) => pc.Counted? || pc.Running? || pc.Finishing?) && (s.runners[p].cancelled ==> s.runners[p].pc.Finishing?)
    case Undying(p) => At(s, p, (pc: Pc) => pc.Running?)
    case Quit(p) => p in s.runners
    case Other(_, _) => true
    case Recover(_, _) => true
  }

  function Apply(s: State, e: Event): State
    requires Enabled(s, e)
  {
    match e
    case Start(p, control, stage, maxAttempts, id) =>
      var entry := Enter(control, stage, maxAttempts, id);
      if entry.Entered? then Put(s, p, entry.runner) else s
    case Cancel(p) => Put(s, p, s.runners[p].(cancelled := true))
    case Bind(p) => BindStep(s, p, s.runners[p])
    case Resolve(p, retained) => ResolveStep(s, p, s.runners[p], retained)
    case Resume(p) => ResumeStep(s, p, s.runners[p])
    case Count(p) => CountStep(s, p, s.runners[p])
    case Launch(p) => LaunchStep(s, p, s.runners[p])
    case Ended(p) => Put(s, p, s.runners[p].(pc := Finishing(s.runners[p].pc.attempt)))
    case Finish(p) => FinishStep(s, p, s.runners[p])
    case Fail(p, retryable) => FailStep(s, p, s.runners[p], retryable)
    case Undying(p) => Put(s, p, s.runners[p].(pc := Unterminated))
    case Quit(p) => Leave(s, p)
    case Other(change, stateId) => OtherStep(s, change, stateId)
    case Recover(series, stateId) => RecoverStep(s, series, stateId)
  }

  /** `harness.run` */
  function LaunchStep(s: State, p: nat, r: Runner): State
    requires r.pc.Counted?
  {
    Put(s.(launches := s.launches + [r.pc.attempt]), p, r.(pc := Running(r.pc.attempt)))
  }

  predicate Possible(s: State, events: seq<Event>)
    decreases |events|
  {
    events == [] || (Enabled(s, events[0]) && Possible(Apply(s, events[0]), events[1..]))
  }

  function After(s: State, events: seq<Event>): State
    requires Possible(s, events)
    decreases |events|
  {
    if events == [] then s else After(Apply(s, events[0]), events[1..])
  }

  /**
   A recovery whose replacement series, if it has one, respects its limit and is not behind the stored one: of the same
   limit, and with a count at least as high. What else the replacement says, and when it was read, does not matter.
   */
  predicate NotBehind(s: State, e: Event) {
    e.Recover? && e.series.Some? ==>
      && e.series.value.consumed <= e.series.value.maxAttempts
      && (s.control.series.Some? ==>
            && e.series.value.maxAttempts == s.control.series.value.maxAttempts
            && e.series.value.consumed >= s.control.series.value.consumed)
  }

  predicate NeverBehind(s: State, events: seq<Event>)
    requires Possible(s, events)
    decreases |events|
  {
    events == [] || (NotBehind(s, events[0]) && NeverBehind(Apply(s, events[0]), events[1..]))
  }
}
