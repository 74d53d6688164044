/**
 The call pacing of src/runtime/rate-limiter.ts:33-93. Callers queue behind one another; the head of the queue checks the
 clock, sleeps, and checks again, so a sleep that ends early costs nothing. Times are real milliseconds.
 */
module RateLimits {
  import opened Basics

  datatype Quota = Quota(remaining: real, limit: real, resetAt: real)

  datatype Options = Options(maxCallsPerMinute: real, quotaReservePercent: real)

  /** A start of a call, with the pause and the spacing in force when it was last checked. */
  datatype Start = Start(ticket: nat, at: real, blockedUntil: real, spacing: real)

  datatype State = State(
    clock: real, spacing: real, reservePercent: real,
    quota: Option<Quota>, blockedUntil: real, lastStart: Option<real>,
    queue: seq<nat>, nextTicket: nat,          // callers in the order they were enqueued
    waiting: nat,                               // background callers waiting for the reserve to pass
    starts: seq<Start>)

  const MINUTE := 60_000.0

  predicate ValidOptions(o: Options) {
    o.maxCallsPerMinute > 0.0 && 0.0 <= o.quotaReservePercent <= 100.0
  }

  function Spacing(o: Options): real
    requires ValidOptions(o)
  {
    MINUTE / o.maxCallsPerMinute
  }

  function Fresh(o: Options, clock: real): State
    requires ValidOptions(o)
  {
    State(clock, Spacing(o), o.quotaReservePercent, None, 0.0, None, [], 0, 0, [])
  }

  function Max(a: real, b: real): real {
    if a < b then b else a
  }

  /** When the head of the queue may start, seen from now. */
  function StartAt(s: State): real {
    var free := Max(s.clock, s.blockedUntil);
    if s.lastStart.Some? then Max(free, s.lastStart.value + s.spacing) else free
  }

  predicate AtReserve(s: State) {
    s.quota.Some? && s.quota.value.resetAt > s.clock && s.quota.value.remaining * 100.0 <= s.quota.value.limit * s.reservePercent
  }

  datatype Event =
    | Elapse(milliseconds: real)
    | Acquire(background: bool)
    | WakeWaiting                         // a background caller looks at the reserve again
    | Turn(delay: real)                   // the head of the queue looks at the clock, and again `delay` later when it starts
    | Observe(quota: Quota)
    | PauseUntil(timestamp: real)
    | Update(options: Options)

  predicate Enabled(s: State, e: Event) {
    match e
    case Elapse(ms) => ms >= 0.0
    case Turn(delay) => s.queue != [] && delay >= 0.0
    case WakeWaiting => s.waiting > 0
    case _ => true
  }

  function Enqueue(s: State): State {
    s.(queue := s.queue + [s.nextTicket], nextTicket := s.nextTicket + 1)
  }

  function TurnStep(s: State, delay: real): State
    requires s.queue != []
  {
    if StartAt(s) > s.clock then s
    else
      var now := s.clock + delay;
      s.(clock := now, lastStart := Some(now), queue := s.queue[1..],
         starts := s.starts + [Start(s.queue[0], now, s.blockedUntil, s.spacing)])
  }

  function Apply(s: State, e: Event): State
    requires Enabled(s, e)
  {
    match e
    case Elapse(ms) => s.(clock := s.clock + ms)
    case Acquire(background) => if background && AtReserve(s) then s.(waiting := s.waiting + 1) else Enqueue(s)
    case WakeWaiting => if AtReserve(s) then s else Enqueue(s.(waiting := s.waiting - 1))
    case Turn(delay) => TurnStep(s, delay)
    case Observe(quota) => if quota.limit > 0.0 then s.(quota := Some(quota)) else s
    case PauseUntil(t) => s.(blockedUntil := Max(s.blockedUntil, t))
    case Update(options) =>
      if ValidOptions(options) then s.(spacing := Spacing(options), reservePercent := options.quotaReservePercent) else s
  }

  predicate Possible(s: State, events: seq<Event>)
    decreases |events|
  {
    events == [] || (Enabled(s, events[0]) && Possible(Apply(s, events[0]), events[1..]))
  }

  function After(s: State, events: seq<Event>): State
    requires Possible(s, events)
    decreases |events|
  {
    if events == [] then s else After(Apply(s, events[0]), events[1..])
  }

  // ----- The invariant -----

  ghost predicate Increasing(xs: seq<nat>) {
    forall i, j :: 0 <= i < j < |xs| ==> xs[i] < xs[j]
  }

  function Tickets(starts: seq<Start>): seq<nat> {
    Map((x: Start) => x.ticket, starts)
  }

  /** A start keeps its distance from the one before it, and does not precede the pause it saw. */
  ghost predicate Paced(starts: seq<Start>, i: nat)
    requires i < |starts|
  {
    starts[i].at >= starts[i].blockedUntil && (i > 0 ==> starts[i].at >= starts[i - 1].at + starts[i].spacing)
  }

  ghost predicate Inv(s: State) {
    && s.spacing >= 0.0
    && Increasing(Tickets(s.starts) + s.queue)
    && (forall t :: t in Tickets(s.starts) + s.queue ==> t < s.nextTicket)
    && (forall i :: 0 <= i < |s.starts| ==> Paced(s.starts, i) && s.starts[i].spacing >= 0.0)
    && s.lastStart == (if s.starts == [] then None else Some(s.starts[|s.starts| - 1].at))
  }

  lemma TurnKeeps(s: State, delay: real)
    requires Inv(s) && s.queue != [] && delay >= 0.0
    ensures Inv(TurnStep(s, delay))
  {
    if StartAt(s) <= s.clock {
      var t := TurnStep(s, delay);
      assert Tickets(t.starts) == Tickets(s.starts) + [s.queue[0]];
      assert Tickets(t.starts) + t.queue == Tickets(s.starts) + s.queue;
      forall i | 0 <= i < |t.starts| ensures Paced(t.starts, i) && t.starts[i].spacing >= 0.0 {
        if i < |s.starts| { assert Paced(s.starts, i); }
      }
    }
  }

  lemma EnqueueKeeps(s: State)
    requires Inv(s)
    ensures Inv(Enqueue(s))
  {
    var all := Tickets(s.starts) + s.queue;
    IncreasingSnoc(all, s.nextTicket);
    assert Tickets(s.starts) + (s.queue + [s.nextTicket]) == all + [s.nextTicket];
  }

  lemma IncreasingSnoc(xs: seq<nat>, t: nat)
    requires Increasing(xs) && forall x :: x in xs ==> x < t
    ensures Increasing(xs + [t])
  {
    forall i, j | 0 <= i < j < |xs| + 1 ensures (xs + [t])[i] < (xs + [t])[j] {
      if j == |xs| { assert xs[i] in xs; }
    }
  }

  lemma StepKeeps(s: State, e: Event)
    requires Inv(s) && Enabled(s, e)
    ensures Inv(Apply(s, e))
    ensures s.starts <= Apply(s, e).starts && s.blockedUntil <= Apply(s, e).blockedUntil
  {
    match e
    case Turn(delay) => TurnKeeps(s, delay);
    case Acquire(_) => EnqueueKeeps(s);
    case WakeWaiting => if !AtReserve(s) { EnqueueKeeps(s.(waiting := s.waiting - 1)); }
    case Update(options) => if ValidOptions(options) { SpacingPositive(options); }
    case _ =>
  }

  lemma SpacingPositive(o: Options)
    requires ValidOptions(o)
    ensures Spacing(o) > 0.0 && Spacing(o) * o.maxCallsPerMinute == MINUTE
  {
  }

  lemma {:induction false} RunKeeps(s: State, events: seq<Event>)
    requires Inv(s) && Possible(s, events)
    ensures Inv(After(s, events)) && s.starts <= After(s, events).starts
    decreases |events|
  {
    if events != [] {
      StepKeeps(s, events[0]);
      RunKeeps(Apply(s, events[0]), events[1..]);
    }
  }

  /** The head of the queue starts exactly when neither the pause nor the spacing holds it back; early wake-ups change nothing. */
  lemma TurnStartsIff(s: State, delay: real)
    requires Enabled(s, Turn(delay))
    ensures Apply(s, Turn(delay)) != s <==>
              s.blockedUntil <= s.clock && (s.lastStart.Some? ==> s.lastStart.value + s.spacing <= s.clock)
    ensures Apply(s, Turn(delay)) != s ==> Apply(s, Turn(delay)).starts == s.starts + [Start(s.queue[0], s.clock + delay, s.blockedUntil, s.spacing)]
  {
  }

  /** Starts happen in the order of enqueueing, and none precedes the pause in force at its last check. */
  lemma StartsInOrder(o: Options, clock: real, events: seq<Event>, i: nat, j: nat)
    requires ValidOptions(o) && Possible(Fresh(o, clock), events)
    requires i < j < |After(Fresh(o, clock), events).starts|
    ensures var s := After(Fresh(o, clock), events);
            && s.starts[i].ticket < s.starts[j].ticket
            && s.starts[j].at >= s.starts[j].blockedUntil
            && (forall t :: t in s.queue ==> s.starts[j].ticket < t)
  {
    SpacingPositive(o);
    RunKeeps(Fresh(o, clock), events);
    OrderOf(After(Fresh(o, clock), events), i, j);
  }

  lemma OrderOf(s: State, i: nat, j: nat)
    requires Inv(s) && i < j < |s.starts|
    ensures s.starts[i].ticket < s.starts[j].ticket && s.starts[j].at >= s.starts[j].blockedUntil
    ensures forall t :: t in s.queue ==> s.starts[j].ticket < t
  {
    assert Paced(s.starts, j);
    var all := Tickets(s.starts) + s.queue;
    assert all[i] == s.starts[i].ticket && all[j] == s.starts[j].ticket;
    forall t | t in s.queue ensures s.starts[j].ticket < t {
      var k :| 0 <= k < |s.queue| && s.queue[k] == t;
      assert all[|s.starts| + k] == t;
    }
  }

  // ----- The minute window -----

  predicate FixedOptions(events: seq<Event>) {
    forall i :: 0 <= i < |events| ==> !events[i].Update?
  }

  ghost predicate SpacedBy(starts: seq<Start>, spacing: real) {
    forall i :: 0 <= i < |starts| ==> starts[i].spacing == spacing
  }

  lemma {:induction false} FixedSpacing(s: State, events: seq<Event>)
    requires Inv(s) && Possible(s, events) && FixedOptions(events) && SpacedBy(s.starts, s.spacing)
    ensures SpacedBy(After(s, events).starts, s.spacing)
    decreases |events|
  {
    if events != [] {
      StepKeeps(s, events[0]);
      assert !events[0].Update?;
      assert Apply(s, events[0]).spacing == s.spacing;
      assert FixedOptions(events[1..]);
      FixedSpacing(Apply(s, events[0]), events[1..]);
    }
  }

  ghost predicate Apart(starts: seq<Start>, spacing: real) {
    forall i, j :: 0 <= i < j < |starts| ==> starts[j].at >= starts[i].at + spacing
  }

  lemma {:induction false} PacedIsApart(starts: seq<Start>, spacing: real, i: nat, j: nat)
    requires spacing >= 0.0 && SpacedBy(starts, spacing) && (forall k :: 0 <= k < |starts| ==> Paced(starts, k))
    requires i < j < |starts|
    ensures starts[j].at >= starts[i].at + spacing
    decreases j
  {
    assert Paced(starts, j);
    if i < j - 1 {
      PacedIsApart(starts, spacing, i, j - 1);
    }
  }

  lemma {:induction false} FilterApart(keep: Start -> bool, starts: seq<Start>, spacing: real)
    requires Apart(starts, spacing)
    ensures Apart(Filter(keep, starts), spacing)
  {
    if starts != [] {
      var rest := starts[1..];
      FilterApart(keep, rest, spacing);
      var kept := Filter(keep, rest);
      if keep(starts[0]) {
        forall j | 0 <= j < |kept| ensures kept[j].at >= starts[0].at + spacing {
          assert kept[j] in kept;
          var k :| 0 <= k < |rest| && rest[k] == kept[j];
          assert starts[k + 1] == kept[j];
        }
      }
    }
  }

  /** `k` spacings, one after the other. */
  function Times(k: nat, spacing: real): real {
    if k == 0 then 0.0 else Times(k - 1, spacing) + spacing
  }

  lemma {:induction false} TimesIsProduct(k: nat, spacing: real)
    ensures Times(k, spacing) == k as real * spacing
  {
    if k > 0 {
      TimesIsProduct(k - 1, spacing);
      assert k as real * spacing == (k - 1) as real * spacing + spacing;
    }
  }

  lemma {:induction false} TimesMonotone(m: nat, k: nat, spacing: real)
    requires spacing >= 0.0 && m <= k
    ensures Times(m, spacing) <= Times(k, spacing)
    decreases k
  {
    if m < k { TimesMonotone(m, k - 1, spacing); }
  }

  lemma {:induction false} Spread(starts: seq<Start>, spacing: real, k: nat)
    requires Apart(starts, spacing) && k < |starts|
    ensures starts[k].at - starts[0].at >= Times(k, spacing)
    decreases k
  {
    if k > 0 {
      Spread(starts, spacing, k - 1);
    }
  }

  function InWindow(starts: seq<Start>, from: real): seq<Start> {
    Filter((x: Start) => from <= x.at < from + MINUTE, starts)
  }

  lemma WindowIsApart(starts: seq<Start>, spacing: real, from: real)
    requires Apart(starts, spacing)
    ensures Apart(InWindow(starts, from), spacing)
  {
    FilterApart((x: Start) => from <= x.at < from + MINUTE, starts, spacing);
  }

  lemma WindowWidth(starts: seq<Start>, from: real)
    requires InWindow(starts, from) != []
    ensures var window := InWindow(starts, from);
            window[|window| - 1].at - window[0].at < MINUTE
  {
    var window := InWindow(starts, from);
    assert window[0] in window && window[|window| - 1] in window;
  }

  lemma WindowOf(starts: seq<Start>, spacing: real, maxCalls: nat, from: real)
    requires Apart(starts, spacing) && spacing > 0.0 && Times(maxCalls, spacing) == MINUTE
    ensures |InWindow(starts, from)| <= maxCalls
  {
    var window := InWindow(starts, from);
    if window != [] {
      WindowWidth(starts, from);
      WindowIsApart(starts, spacing, from);
      Spread(window, spacing, |window| - 1);
      if |window| > maxCalls { TimesMonotone(maxCalls, |window| - 1, spacing); }
    }
  }

  /** With fixed options, every half-open minute sees at most the allowed number of starts, wherever the minute begins. */
  lemma AtMostMaxCallsPerMinute(maxCalls: nat, reserve: real, clock: real, events: seq<Event>, from: real)
    requires maxCalls >= 1 && 0.0 <= reserve <= 100.0
    requires Possible(Fresh(Options(maxCalls as real, reserve), clock), events) && FixedOptions(events)
    ensures |InWindow(After(Fresh(Options(maxCalls as real, reserve), clock), events).starts, from)| <= maxCalls
  {
    var o := Options(maxCalls as real, reserve);
    SpacingPositive(o);
    RunKeeps(Fresh(o, clock), events);
    FixedSpacing(Fresh(o, clock), events);
    RunIsApart(After(Fresh(o, clock), events), Spacing(o));
    TimesIsProduct(maxCalls, Spacing(o));
    WindowOf(After(Fresh(o, clock), events).starts, Spacing(o), maxCalls, from);
  }

  lemma RunIsApart(s: State, spacing: real)
    requires Inv(s) && spacing >= 0.0 && SpacedBy(s.starts, spacing)
    ensures Apart(s.starts, spacing)
  {
    forall i, j | 0 <= i < j < |s.starts| ensures s.starts[j].at >= s.starts[i].at + spacing {
      PacedIsApart(s.starts, spacing, i, j);
    }
  }

  // ----- The reserve -----

  /** A background caller joins the queue only while the quota is above its reserve; others always do. */
  lemma ReserveHoldsBackgroundCalls(s: State, e: Event)
    requires Enabled(s, e)
    ensures Apply(s, e).queue == s.queue + [s.nextTicket] ==> e == Acquire(false) || (!AtReserve(s) && (e.Acquire? || e.WakeWaiting?))
    ensures e == Acquire(false) ==> Apply(s, e).queue == s.queue + [s.nextTicket]
  {
  }

  // ----- What callers are told takes effect -----

  /** Whatever happens after a pause, no call starts before it is over; and a shorter pause does not cut a longer one. */
  lemma PauseHoldsCalls(s: State, t: real, events: seq<Event>)
    requires Inv(s) && Possible(Apply(s, PauseUntil(t)), events)
    ensures var paused := Apply(s, PauseUntil(t));
            && paused == s.(blockedUntil := paused.blockedUntil) && (paused.blockedUntil == t || paused.blockedUntil == s.blockedUntil)
            && forall i :: |s.starts| <= i < |After(paused, events).starts| ==>
                 After(paused, events).starts[i].at >= t && After(paused, events).starts[i].at >= s.blockedUntil
  {
    StepKeeps(s, PauseUntil(t));
    BlockedRun(Apply(s, PauseUntil(t)), Apply(s, PauseUntil(t)).blockedUntil, events);
  }

  lemma StepIsBlocked(s: State, until: real, e: Event)
    requires Inv(s) && s.blockedUntil >= until && Enabled(s, e)
    ensures forall i :: |s.starts| <= i < |Apply(s, e).starts| ==> Apply(s, e).starts[i].at >= until
  {
  }

  lemma {:induction false} BlockedRun(s: State, until: real, events: seq<Event>)
    requires Inv(s) && s.blockedUntil >= until && Possible(s, events)
    ensures forall i :: |s.starts| <= i < |After(s, events).starts| ==> After(s, events).starts[i].at >= until
    decreases |events|
  {
    hide Inv, Apply;
    if events != [] {
      var next := Apply(s, events[0]);
      StepKeeps(s, events[0]);
      StepIsBlocked(s, until, events[0]);
      RunKeeps(next, events[1..]);
      BlockedRun(next, until, events[1..]);
      forall i | |s.starts| <= i < |next.starts| ensures After(s, events).starts[i].at >= until {
        assert next.starts[i] == After(s, events).starts[i];
      }
    }
  }

  predicate LeavesQuota(events: seq<Event>) {
    forall i :: 0 <= i < |events| ==> !events[i].Observe? && !events[i].Update?
  }

  /** Until something newer is observed, background calls are held back exactly while the quota is used up to its reserve and not yet reset. */
  lemma {:induction false} ReserveFollowsObservation(s: State, q: Quota, events: seq<Event>)
    requires s.quota == Some(q) && Possible(s, events) && LeavesQuota(events)
    ensures AtReserve(After(s, events)) <==> q.resetAt > After(s, events).clock && q.remaining * 100.0 <= q.limit * s.reservePercent
    decreases |events|
  {
    if events != [] {
      assert !events[0].Observe? && !events[0].Update?;
      ReserveFollowsObservation(Apply(s, events[0]), q, events[1..]);
    }
  }

  /** An observation counts from then on when its limit is positive, and changes nothing otherwise. */
  lemma ObservationCounts(s: State, q: Quota, events: seq<Event>)
    requires Possible(Apply(s, Observe(q)), events) && LeavesQuota(events)
    ensures q.limit > 0.0 ==>
              (AtReserve(After(Apply(s, Observe(q)), events)) <==>
               q.resetAt > After(Apply(s, Observe(q)), events).clock && q.remaining * 100.0 <= q.limit * s.reservePercent)
    ensures q.limit <= 0.0 ==> Apply(s, Observe(q)) == s
  {
    if q.limit > 0.0 { ReserveFollowsObservation(Apply(s, Observe(q)), q, events); }
  }

  /** Valid options pace every call that starts after them, and invalid ones change nothing. */
  lemma OptionsTakeEffect(s: State, o: Options, events: seq<Event>)
    requires Inv(s) && Possible(Apply(s, Update(o)), events) && FixedOptions(events)
    ensures !ValidOptions(o) ==> Apply(s, Update(o)) == s
    ensures ValidOptions(o) ==> PacedBy(After(Apply(s, Update(o)), events).starts, |s.starts|, o)
  {
    if ValidOptions(o) {
      var t := Apply(s, Update(o));
      StepKeeps(s, Update(o));
      SpacedRun(t, events);
      RunKeeps(t, events);
      LaterArePaced(After(t, events), |s.starts|, o);
    }
  }

  /** From start `n` on, calls keep the distance that the options ask for. */
  ghost predicate PacedBy(starts: seq<Start>, n: nat, o: Options)
    requires o.maxCallsPerMinute > 0.0
  {
    forall i :: n <= i < |starts| && i > 0 ==> starts[i].at >= starts[i - 1].at + MINUTE / o.maxCallsPerMinute
  }

  lemma LaterArePaced(s: State, n: nat, o: Options)
    requires Inv(s) && ValidOptions(o) && forall i :: n <= i < |s.starts| ==> s.starts[i].spacing == Spacing(o)
    ensures PacedBy(s.starts, n, o)
  {
    forall i | n <= i < |s.starts| && i > 0 ensures s.starts[i].at >= s.starts[i - 1].at + MINUTE / o.maxCallsPerMinute {
      assert Paced(s.starts, i);
    }
  }

  lemma StepSpaces(s: State, e: Event)
    requires Enabled(s, e) && !e.Update?
    ensures Apply(s, e).spacing == s.spacing
    ensures forall i :: |s.starts| <= i < |Apply(s, e).starts| ==> Apply(s, e).starts[i].spacing == s.spacing
  {
  }

  lemma {:induction false} SpacedRun(s: State, events: seq<Event>)
    requires Inv(s) && Possible(s, events) && FixedOptions(events)
    ensures forall i :: |s.starts| <= i < |After(s, events).starts| ==> After(s, events).starts[i].spacing == s.spacing
    decreases |events|
  {
    hide Inv;
    if events != [] {
      var next := Apply(s, events[0]);
      assert !events[0].Update? && FixedOptions(events[1..]);
      StepKeeps(s, events[0]);
      StepSpaces(s, events[0]);
      RunKeeps(next, events[1..]);
      hide Apply;
      SpacedRun(next, events[1..]);
      forall i | |s.starts| <= i < |next.starts| ensures After(s, events).starts[i].spacing == s.spacing {
        assert next.starts[i] == After(s, events).starts[i];
      }
    }
  }

  // ----- The limiter object -----

  class RateLimiter {
    var clock: real
    var spacing: real
    var reservePercent: real
    var quota: Option<Quota>
    var blockedUntil: real
    var lastStart: Option<real>
    var queue: seq<nat>
    var nextTicket: nat
    var waiting: nat
    var starts: seq<Start>

    function Model(): State
      reads this
    {
      State(clock, spacing, reservePercent, quota, blockedUntil, lastStart, queue, nextTicket, waiting, starts)
    }

    ghost predicate Valid()
      reads this
    {
      Inv(Model())
    }

    constructor (options: Options, clock: real)
      requires ValidOptions(options)
      ensures Valid() && Model() == Fresh(options, clock)
    {
      this.clock, spacing, reservePercent := clock, MINUTE / options.maxCallsPerMinute, options.quotaReservePercent;
      quota, blockedUntil, lastStart, queue, nextTicket, waiting, starts := None, 0.0, None, [], 0, 0, [];
      new;
      SpacingPositive(options);
    }

    method Acquire(background: bool)
      requires Valid()
      modifies this
      ensures Valid() && Model() == Apply(old(Model()), Event.Acquire(background))
    {
      hide Inv;
      ghost var was := Model();
      if background && AtReserve(Model()) {
        waiting := waiting + 1;
      } else {
        Join();
      }
      StepKeeps(was, Event.Acquire(background));
    }

    method Join()
      modifies `queue, `nextTicket
      ensures Model() == Enqueue(old(Model()))
    {
      queue, nextTicket := queue + [nextTicket], nextTicket + 1;
    }

    /** One round of `waitForReserve` of a background caller. */
    method WakeWaiting()
      requires Valid() && waiting > 0
      modifies this
      ensures Valid() && Model() == Apply(old(Model()), Event.WakeWaiting)
    {
      hide Inv;
      ghost var was := Model();
      if !AtReserve(Model()) {
        waiting := waiting - 1;
        Join();
      }
      StepKeeps(was, Event.WakeWaiting);
    }

    /** One round of the waiting loop of the caller at the head of the queue. */
    method Turn(delay: real) returns (started: bool)
      requires Valid() && queue != [] && delay >= 0.0
      modifies this
      ensures Valid() && Model() == Apply(old(Model()), Event.Turn(delay)) && started == (StartAt(old(Model())) <= old(clock))
    {
      hide Inv;
      ghost var next := Apply(Model(), Event.Turn(delay));
      StepKeeps(Model(), Event.Turn(delay));
      var startAt := Max(clock, blockedUntil);
      if lastStart.Some? { startAt := Max(startAt, lastStart.value + spacing); }
      if startAt > clock { return false; }
      clock := clock + delay;
      lastStart := Some(clock);
      starts := starts + [Start(queue[0], clock, blockedUntil, spacing)];
      queue := queue[1..];
      assert Model() == next;
      return true;
    }

    method PauseUntil(timestamp: real)
      requires Valid()
      modifies this
      ensures Valid() && Model() == Apply(old(Model()), Event.PauseUntil(timestamp))
    {
      hide Inv;
      StepKeeps(Model(), Event.PauseUntil(timestamp));
      blockedUntil := Max(blockedUntil, timestamp);
    }

    method PauseFor(milliseconds: real)
      requires Valid()
      modifies this
      ensures Valid()
      ensures Model() == if milliseconds >= 0.0 then Apply(old(Model()), Event.PauseUntil(old(clock) + milliseconds)) else old(Model())
    {
      if milliseconds >= 0.0 { PauseUntil(clock + milliseconds); }
    }

    method Observe(observation: Quota)
      requires Valid()
      modifies this
      ensures Valid() && Model() == Apply(old(Model()), Event.Observe(observation))
    {
      hide Inv;
      StepKeeps(Model(), Event.Observe(observation));
      if observation.limit > 0.0 { quota := Some(observation); }
    }

    method Update(options: Options) returns (ok: bool)
      requires Valid()
      modifies this
      ensures Valid() && ok == ValidOptions(options) && Model() == Apply(old(Model()), Event.Update(options))
    {
      hide Inv;
      StepKeeps(Model(), Event.Update(options));
      if !ValidOptions(options) { return false; }
      spacing, reservePercent := MINUTE / options.maxCallsPerMinute, options.quotaReservePercent;
      return true;
    }
  }
}
