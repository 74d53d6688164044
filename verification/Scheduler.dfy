/**
 The keyed, coalescing scheduler (src/runtime/scheduler.ts:31-138). Entries are numbered in creation order;
 `Entry` keeps the flags the source mutates, and the promise each entry settles.
 */
module SchedulerModel {
  import opened Basics

  type Id = nat

  datatype Outcome = Unsettled | Resolved | Failed | Cancelled

  datatype Entry<T> = Entry(key: string, value: T, claimed: bool, started: bool, outcome: Outcome, settles: nat)

  datatype State<T> = State(
    entries: seq<Entry<T>>,
    pending: seq<Id>,
    keyed: map<string, seq<Id>>,      // live generations of each key, oldest first
    active: int,
    concurrency: int,
    closed: bool,
    microtasks: set<Id>,              // queued `start` callbacks
    running: set<Id>,                 // entries whose work has not settled
    waiting: nat,                     // unresolved `drain` promises
    drains: nat)                      // resolved `drain` promises
  {
    function KeyOf(e: Id): string
      requires e < |entries|
    {
      entries[e].key
    }

    predicate Live(e: Id) {
      e < |entries| && entries[e].outcome.Unsettled?
    }

    /** `keyed.get(entry.id)?.[0] === entry` */
    predicate First(e: Id) {
      e < |entries| && KeyOf(e) in keyed && keyed[KeyOf(e)] != [] && keyed[KeyOf(e)][0] == e
    }

    predicate Idle() {
      active == 0 && pending == []
    }

    function ClaimedLive(): set<Id> {
      set e: Id | 0 <= e < |entries| && Live(e) && entries[e].claimed
    }
  }

  function Init<T>(concurrency: int): State<T> {
    State([], [], map[], 0, concurrency, false, {}, {}, 0, 0)
  }

  function IndexOf(xs: seq<Id>, e: Id): (i: Option<nat>)
    ensures i.Some? ==> i.value < |xs| && xs[i.value] == e && e !in xs[..i.value]
    ensures i.None? ==> e !in xs
  {
    if xs == [] then None
    else if xs[0] == e then Some(0)
    else
      var i := IndexOf(xs[1..], e);
      if i.Some? then
        assert xs[..i.value + 1] == [xs[0]] + xs[1..][..i.value];
        Some(i.value + 1)
      else None
  }

  function Without(xs: seq<Id>, e: Id): seq<Id> {
    var i := IndexOf(xs, e);
    if i.Some? then xs[..i.value] + xs[i.value + 1..] else xs
  }

  /** `remove`: takes an entry out of its key's generations, and the key out of the map when none are left. */
  function RemoveFrom(keyed: map<string, seq<Id>>, key: string, e: Id): map<string, seq<Id>> {
    if key !in keyed then keyed
    else
      var rest := Without(keyed[key], e);
      if rest == [] then keyed - {key} else keyed[key := rest]
  }

  /** The position of the oldest queued entry that is first of its key. */
  function FirstEligible<T>(s: State<T>, from: nat): (i: Option<nat>)
    requires from <= |s.pending|
    ensures i.Some? ==> from <= i.value < |s.pending| && s.First(s.pending[i.value])
    ensures forall j :: from <= j < (if i.Some? then i.value else |s.pending|) ==> !s.First(s.pending[j])
    decreases |s.pending| - from
  {
    if from == |s.pending| then None
    else if s.First(s.pending[from]) then Some(from)
    else FirstEligible(s, from + 1)
  }

  function Claim<T>(s: State<T>, i: nat): State<T>
    requires i < |s.pending| && s.pending[i] < |s.entries|
  {
    var e := s.pending[i];
    s.(pending := s.pending[..i] + s.pending[i + 1..],
       entries := s.entries[e := s.entries[e].(claimed := true)],
       active := s.active + 1,
       microtasks := s.microtasks + {e})
  }

  /** `pump` */
  function Pump<T>(s: State<T>): State<T>
    decreases |s.pending|
  {
    var i := FirstEligible(s, 0);
    if s.active < s.concurrency && i.Some? then Pump(Claim(s, i.value)) else s
  }

  /** The promise an accepted `schedule` answers with: that of entry `id`. */
  datatype Ticket = Rejected | Accepted(id: Id)

  /** `schedule`: joins the newest generation if it has not started, else appends a new one. */
  function Schedule<T>(s: State<T>, key: string, value: T): (State<T>, Ticket) {
    if s.closed then (s, Rejected)
    else
      var generations := if key in s.keyed then s.keyed[key] else [];
      if generations != [] && generations[|generations| - 1] < |s.entries| && !s.entries[generations[|generations| - 1]].started then
        (s, Accepted(generations[|generations| - 1]))
      else
        var e := |s.entries|;
        (Pump(s.(entries := s.entries + [Entry(key, value, false, false, Unsettled, 0)],
                 keyed := s.keyed[key := generations + [e]],
                 pending := s.pending + [e])),
         Accepted(e))
  }

  /** `setConcurrency`: throws, changing nothing, below one. */
  function SetConcurrency<T>(s: State<T>, next: int): State<T> {
    if next < 1 then s else Pump(s.(concurrency := next))
  }

  function Settle<T>(s: State<T>, e: Id, outcome: Outcome): State<T>
    requires e < |s.entries|
  {
    s.(entries := s.entries[e := s.entries[e].(outcome := outcome, settles := s.entries[e].settles + 1)])
  }

  function SettleDrain<T>(s: State<T>): State<T> {
    if s.Idle() then s.(waiting := 0, drains := s.drains + s.waiting) else s
  }

  /** One turn of the loop in `close`. */
  function Cancel<T>(s: State<T>, e: Id): State<T>
    requires e < |s.entries|
  {
    Settle(s.(pending := Without(s.pending, e),
              active := if s.entries[e].claimed then s.active - 1 else s.active,
              keyed := RemoveFrom(s.keyed, s.entries[e].key, e)), e, Cancelled)
  }

  function CancelFrom<T>(s: State<T>, from: Id): State<T>
    requires from <= |s.entries|
    decreases |s.entries| - from
  {
    if from == |s.entries| then s
    else CancelFrom(if s.Live(from) && !s.entries[from].started then Cancel(s, from) else s, from + 1)
  }

  /** `close`: rejects everything that has not started. */
  function Close<T>(s: State<T>): State<T> {
    if s.closed then s else SettleDrain(CancelFrom(s.(closed := true), 0))
  }

  /** `drain` */
  function Drain<T>(s: State<T>): State<T> {
    if s.Idle() then s.(drains := s.drains + 1) else s.(waiting := s.waiting + 1)
  }

  /** A queued `start` callback runs. */
  function Start<T>(s: State<T>, e: Id): State<T>
    requires e in s.microtasks && e < |s.entries|
  {
    var t := s.(microtasks := s.microtasks - {e});
    if s.closed || !s.First(e) then t
    else t.(entries := s.entries[e := s.entries[e].(started := true)], running := s.running + {e})
  }

  /** `finish`: the work of a started entry settles. */
  function Finish<T>(s: State<T>, e: Id, succeeded: bool): State<T>
    requires e in s.running && e < |s.entries|
  {
    var freed := s.(active := s.active - 1, keyed := RemoveFrom(s.keyed, s.entries[e].key, e), running := s.running - {e});
    var settled := Settle(freed, e, if succeeded then Resolved else Failed);
    SettleDrain(if s.closed then settled else Pump(settled))
  }
}
