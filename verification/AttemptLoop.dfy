/**
 The retry loop of one runner that nobody disturbs (src/runtime/attempt-runner.ts:349-499): a loop of counting writes,
 launches and result writes against the stored control state, and what it leaves for every course the attempts take.
 */
module AttemptLoop {
  import opened Basics
  import opened Execution
  import opened Attempts

  datatype Ending = Success | Retryable | Final

  /** How one attempt goes: whether it got as far as launching its harness, and how it ended. */
  datatype Course = Course(launched: bool, ending: Ending)

  function Next(control: Control, series: Series): Control {
    control.(sequence := control.sequence + 1, series := Some(series))
  }

  function Counting(series: Series, id: AttemptId): Series {
    series.(consumed := series.consumed + 1, current := Some(Attempt(id, Started)))
  }

  function Ended(series: Series, id: AttemptId, status: Status): Series {
    series.(current := Some(Attempt(id, status)))
  }

  function Blocked(control: Control, series: Series): Control {
    Next(control, series).(stateId := "blocked", resumeStateId := Some(series.stage.stateId))
  }

  /** One turn of the loop: what is stored, the series to go on with, and whether the loop goes on. */
  function Turn(control: Control, series: Series, course: Course, id: AttemptId): (Control, Series, bool) {
    var counted := Counting(series, id);
    var stored := Next(control, counted);
    var failed := Ended(counted, id, Failed);
    if course.ending.Success? then (Next(stored, Ended(counted, id, Succeeded)), counted, false)
    else if course.ending.Final? || counted.consumed >= counted.maxAttempts then (Blocked(stored, failed), failed, false)
    else (Next(stored, failed), failed, true)
  }

  function Launched(course: Course, id: AttemptId): seq<AttemptId> {
    if course.launched then [id] else []
  }

  /** The stored control state and the launches the loop leaves; it stops in the middle when the courses run out. */
  function Loop(control: Control, series: Series, courses: seq<Course>, id: AttemptId): (Control, seq<AttemptId>)
    decreases |courses|
  {
    if series.consumed >= series.maxAttempts || courses == [] then (control, [])
    else
      var turn := Turn(control, series, courses[0], id);
      if !turn.2 then (turn.0, Launched(courses[0], id))
      else
        var rest := Loop(turn.0, turn.1, courses[1..], id + 1);
        (rest.0, Launched(courses[0], id) + rest.1)
  }

  class ControlCell {
    var control: Control

    method CompareAndSwap(expected: Control, next: Control) returns (ok: bool)
      modifies this
      ensures ok == (old(control) == expected)
      ensures control == if ok then next else old(control)
    {
      ok := control == expected;
      if ok { control := next; }
    }

    constructor (control: Control)
      ensures this.control == control
    {
      this.control := control;
    }
  }

  /** Counts, launches and records one attempt; `ok` is false when the counting write was refused. */
  method TakeTurn(cell: ControlCell, held: Control, opening: Series, course: Course, id: AttemptId)
    returns (ok: bool, control: Control, series: Series, more: bool)
    modifies cell
    ensures ok == (old(cell.control) == held)
    ensures ok ==> (control, series, more) == Turn(held, opening, course, id) && cell.control == control
    ensures !ok ==> cell.control == old(cell.control)
  {
    series := Counting(opening, id);
    control := Next(held, series);
    ok := cell.CompareAndSwap(held, control);
    if !ok { return false, held, opening, false; }
    var stored := control;
    more := false;
    if course.ending.Success? {
      control := Next(stored, Ended(series, id, Succeeded));
    } else {
      series := Ended(series, id, Failed);
      if course.ending.Final? || series.consumed >= series.maxAttempts {
        control := Blocked(stored, series);
      } else {
        control := Next(stored, series);
        more := true;
      }
    }
    ok := cell.CompareAndSwap(stored, control);
  }

  /** What the loop leaves in all, with `launches` made already and the courses before `k` taken. */
  function Remaining(launches: seq<AttemptId>, control: Control, series: Series, courses: seq<Course>, k: nat, id: AttemptId): (Control, seq<AttemptId>)
    requires k <= |courses|
  {
    var rest := Loop(control, series, courses[k..], id + k);
    (rest.0, launches + rest.1)
  }

  lemma OneTurn(launches: seq<AttemptId>, control: Control, series: Series, courses: seq<Course>, k: nat, id: AttemptId)
    requires k < |courses| && series.consumed < series.maxAttempts
    ensures var (next, rest, more) := Turn(control, series, courses[k], id + k);
            var made := launches + Launched(courses[k], id + k);
            Remaining(launches, control, series, courses, k, id) == if more then Remaining(made, next, rest, courses, k + 1, id) else (next, made)
  {
    assert courses[k..][0] == courses[k] && courses[k..][1..] == courses[k + 1..];
    var (next, rest, more) := Turn(control, series, courses[k], id + k);
    var launched, later := Launched(courses[k], id + k), Loop(next, rest, courses[k + 1..], id + k + 1).1;
    assert launches + (launched + later) == launches + launched + later;
  }

  /** Answers the launches. When the held control state is not the stored one, nothing is launched and nothing stored. */
  method RunLoop(cell: ControlCell, held: Control, opening: Series, courses: seq<Course>, id: AttemptId) returns (launches: seq<AttemptId>)
    modifies cell
    ensures old(cell.control) == held ==> (cell.control, launches) == Loop(held, opening, courses, id)
    ensures old(cell.control) != held ==> cell.control == old(cell.control) && launches == []
  {
    var control, series := held, opening;
    launches := [];
    var k := 0;
    ghost var stored := cell.control;
    assert courses[0..] == courses && [] + Loop(held, opening, courses, id).1 == Loop(held, opening, courses, id).1;
    while series.consumed < series.maxAttempts && k < |courses|
      invariant k <= |courses|
      invariant stored != held ==> k == 0 && cell.control == stored && launches == [] && control == held
      invariant stored == held ==> cell.control == control
      invariant stored == held ==> Remaining(launches, control, series, courses, k, id) == Loop(held, opening, courses, id)
      decreases |courses| - k
    {
      OneTurn(launches, control, series, courses, k, id);
      var ok, nextControl, nextSeries, more := TakeTurn(cell, control, series, courses[k], id + k);
      if !ok { return; }
      launches := launches + Launched(courses[k], id + k);
      if !more { return; }
      control, series, k := nextControl, nextSeries, k + 1;
    }
    assert launches + [] == launches;
  }

  // ----- What the loop achieves -----

  /** How many attempts are made: up to the first that is not a retryable failure, within the budget. */
  function Made(courses: seq<Course>, budget: nat): (n: nat)
    ensures n <= budget && n <= |courses|
    ensures forall i :: 0 <= i < n - 1 ==> courses[i].ending.Retryable?
    ensures n == budget || n == |courses| || (n > 0 && !courses[n - 1].ending.Retryable?)
    decreases budget
  {
    if budget == 0 || courses == [] then 0
    else if !courses[0].ending.Retryable? then 1
    else 1 + Made(courses[1..], budget - 1)
  }

  /** The attempts that got as far as their harness, in order. */
  function LaunchesOf(courses: seq<Course>, id: AttemptId): seq<AttemptId> {
    if courses == [] then [] else Launched(courses[0], id) + LaunchesOf(courses[1..], id + 1)
  }

  /** What the courses make of the loop: see `LoopSpendsWhatItMakes`. */
  ghost predicate Spends(control: Control, series: Series, courses: seq<Course>, id: AttemptId, made: nat, stored: Control, launches: seq<AttemptId>)
    requires made <= |courses|
  {
    && stored.series.Some? && stored.series.value.(current := None) == series.(consumed := series.consumed + made, current := None)
    && stored.sequence == control.sequence + 2 * made
    && launches == LaunchesOf(courses[..made], id)
    && stored.series.value.current
       == (if made == 0 then series.current
           else Some(Attempt(id + made - 1, if courses[made - 1].ending.Success? then Succeeded else Failed)))
    && (if made > 0 && !courses[made - 1].ending.Success? && (courses[made - 1].ending.Final? || series.consumed + made == series.maxAttempts)
        then stored.stateId == "blocked" && stored.resumeStateId == Some(series.stage.stateId)
        else stored.stateId == control.stateId && stored.resumeStateId == control.resumeStateId)
  }

  lemma LastTurnSpends(control: Control, series: Series, courses: seq<Course>, id: AttemptId)
    requires series.consumed < series.maxAttempts && courses != []
    requires !Turn(control, series, courses[0], id).2
    ensures Spends(control, series, courses, id, 1, Turn(control, series, courses[0], id).0, Launched(courses[0], id))
  {
    assert courses[..1][0] == courses[0] && courses[..1][1..] == [];
  }

  lemma NextTurnSpends(control: Control, series: Series, courses: seq<Course>, id: AttemptId, made: nat, stored: Control, launches: seq<AttemptId>)
    requires series.consumed < series.maxAttempts && courses != [] && made < |courses| && courses[0].ending.Retryable?
    requires var turn := Turn(control, series, courses[0], id);
             turn.2 && Spends(turn.0, turn.1, courses[1..], id + 1, made, stored, launches)
    ensures Spends(control, series, courses, id, made + 1, stored, Launched(courses[0], id) + launches)
  {
    assert courses[..made + 1][0] == courses[0] && courses[..made + 1][1..] == courses[1..][..made];
  }

  /**
   Each attempt made consumes one of the budget, by exactly two writes, and is launched if it got that far; the last one is
   recorded as it ended; and the flow ends blocked, to be resumed at its stage, exactly when the last attempt failed finally
   or used up the budget without success.
   */
  lemma {:induction false} LoopSpendsWhatItMakes(control: Control, series: Series, courses: seq<Course>, id: AttemptId)
    requires control.series == Some(series) && series.consumed <= series.maxAttempts
    ensures var (stored, launches) := Loop(control, series, courses, id);
            Spends(control, series, courses, id, Made(courses, series.maxAttempts - series.consumed), stored, launches)
    decreases |courses|
  {
    if series.consumed < series.maxAttempts && courses != [] {
      var turn := Turn(control, series, courses[0], id);
      if turn.2 {
        LoopSpendsWhatItMakes(turn.0, turn.1, courses[1..], id + 1);
        var rest := Loop(turn.0, turn.1, courses[1..], id + 1);
        NextTurnSpends(control, series, courses, id, Made(courses[1..], turn.1.maxAttempts - turn.1.consumed), rest.0, rest.1);
      } else {
        LastTurnSpends(control, series, courses, id);
      }
    }
  }

  // ----- The loop as a run among others -----

  /** Runner `p` stands at the head of its loop and holds the stored control state. */
  predicate AtLoop(s: State, p: nat) {
    && p in s.runners && s.runners[p].pc.Looping? && !s.runners[p].cancelled && !s.runners[p].unsaved
    && s.runners[p].control == s.control && s.control.series == Some(s.runners[p].series)
    && s.runners[p].stage == s.runners[p].series.stage
  }

  lemma Step(s: State, e: Event, rest: seq<Event>)
    requires Enabled(s, e) && Possible(Apply(s, e), rest)
    ensures Possible(s, [e] + rest) && After(s, [e] + rest) == After(Apply(s, e), rest)
  {
    assert ([e] + rest)[1..] == rest;
  }

  /** From the counted attempt to its end. */
  lemma EndsAsRun(s: State, p: nat, course: Course) returns (events: seq<Event>)
    requires p in s.runners && s.runners[p].pc.Counted? && s.runners[p].control == s.control && !s.runners[p].unsaved && !s.runners[p].cancelled
    requires s.control.series == Some(s.runners[p].series) && s.runners[p].stage == s.runners[p].series.stage
    requires s.runners[p].series.current == Some(Attempt(s.runners[p].pc.attempt, Started))
    requires course.ending.Success? ==> course.launched
    ensures Possible(s, events)
    ensures var t := After(s, events); var r := s.runners[p]; var failed := Ended(r.series, r.pc.attempt, Failed);
            && t.launches == s.launches + Launched(course, r.pc.attempt) && t.nextId == s.nextId
            && (course.ending.Success? ==> t.control == Next(s.control, Ended(r.series, r.pc.attempt, Succeeded)))
            && (!course.ending.Success? && (course.ending.Final? || r.series.consumed >= r.series.maxAttempts) ==> t.control == Blocked(s.control, failed))
            && (course.ending.Retryable? && r.series.consumed < r.series.maxAttempts ==>
                  t.control == Next(s.control, failed)
                  && p in t.runners && t.runners[p] == r.(control := t.control, series := failed, pc := Looping))
  {
    var launched := if course.launched then Apply(s, Launch(p)) else s;
    assert launched.launches == s.launches + Launched(course, s.runners[p].pc.attempt);
    if course.ending.Success? {
      var ended := Apply(launched, Event.Ended(p));
      Step(ended, Finish(p), []);
      Step(launched, Event.Ended(p), [Finish(p)] + []);
      events := [Event.Ended(p)] + ([Finish(p)] + []);
    } else {
      Step(launched, Fail(p, course.ending.Retryable?), []);
      events := [Fail(p, course.ending.Retryable?)] + [];
    }
    if course.launched {
      Step(s, Launch(p), events);
      events := [Launch(p)] + events;
    }
  }

  lemma TurnIsARun(s: State, p: nat, course: Course) returns (events: seq<Event>)
    requires AtLoop(s, p) && s.runners[p].series.consumed < s.runners[p].series.maxAttempts
    requires course.ending.Success? ==> course.launched
    ensures Possible(s, events)
    ensures var t := After(s, events); var (control, series, more) := Turn(s.control, s.runners[p].series, course, s.nextId);
            && t.control == control && t.launches == s.launches + Launched(course, s.nextId) && t.nextId == s.nextId + 1
            && (more ==> AtLoop(t, p) && t.runners[p].series == series)
  {
    var counted := Apply(s, Count(p));
    var rest := EndsAsRun(counted, p, course);
    Step(s, Count(p), rest);
    events := [Count(p)] + rest;
  }

  /** Undisturbed, the runner of the many-runner model does exactly what this loop does. */
  lemma {:induction false} LoopIsARun(s: State, p: nat, courses: seq<Course>) returns (events: seq<Event>)
    requires AtLoop(s, p) && forall c :: c in courses && c.ending.Success? ==> c.launched
    ensures Possible(s, events)
    ensures var (control, launches) := Loop(s.control, s.runners[p].series, courses, s.nextId);
            After(s, events).control == control && After(s, events).launches == s.launches + launches
    decreases |courses|
  {
    var series := s.runners[p].series;
    events := [];
    if series.consumed < series.maxAttempts && courses != [] {
      events := TurnIsARun(s, p, courses[0]);
      if Turn(s.control, series, courses[0], s.nextId).2 {
        var t := After(s, events);
        var rest := LoopIsARun(t, p, courses[1..]);
        Join(s, events, rest);
        events := events + rest;
      }
    }
  }

  lemma {:induction false} Join(s: State, first: seq<Event>, second: seq<Event>)
    requires Possible(s, first) && Possible(After(s, first), second)
    ensures Possible(s, first + second) && After(s, first + second) == After(After(s, first), second)
    decreases |first|
  {
    if first == [] {
      assert first + second == second;
    } else {
      assert (first + second)[1..] == first[1..] + second;
      Join(Apply(s, first[0]), first[1..], second);
    }
  }
}
