/**
 Several controller processes working on one ticket row. A request loads the row in one step and saves in a later one;
 between the two any other process may save, and a process may stop at any point
 (src/runtime/local-store.ts:74-108, src/runtime/control-state.ts:46-113).
 */
module StoreRaces {
  import opened Basics
  import opened Execution
  import opened LocalStore
  import opened ControlWriter

  datatype Pending = Pending(request: Request, basis: Option<Stored>)

  /** A save the store accepted: the request, the row it was computed from, and the row it left. */
  datatype Accepted = Accepted(request: Request, basis: Option<Stored>, result: Stored)

  datatype State = State(row: Option<Stored>, pending: map<nat, Pending>, accepted: seq<Accepted>)

  datatype Event =
    | Load(process: nat, request: Request)
    | Save(process: nat, busy: bool)
    | Crash(process: nat)

  const EMPTY := State(None, map[], [])

  predicate Enabled(s: State, e: Event) {
    match e
    case Load(p, _) => p !in s.pending
    case Save(p, _) => p in s.pending
    case Crash(_) => true
  }

  function Apply(s: State, e: Event): State
    requires Enabled(s, e)
  {
    match e
    case Load(p, request) =>
      var loaded := LoadRow(s.row);
      if loaded.Ok? then s.(pending := s.pending[p := Pending(request, loaded.value)]) else s
    case Save(p, busy) => SaveStep(s.(pending := s.pending - {p}), s.pending[p], busy)
    case Crash(p) => s.(pending := s.pending - {p})
  }

  function SaveStep(s: State, pending: Pending, busy: bool): State {
    var prepared := Prepare(pending.basis, pending.request);
    if prepared.Err? || prepared.value.None? then s
    else
      var (row, answer) := SaveRow(s.row, RevisionOf(pending.basis), prepared.value.value, busy);
      if answer.Err? then s
      else s.(row := row, accepted := s.accepted + [Accepted(pending.request, pending.basis, answer.value)])
  }

  // ----- The chain of accepted writes -----

  function RowAfter(accepted: seq<Accepted>, count: nat): Option<Stored>
    requires count <= |accepted|
  {
    if count == 0 then None else Some(accepted[count - 1].result)
  }

  /** Write `i` was computed from what write `i - 1` left, and left revision `i` with a control sequence of `i`. */
  ghost predicate Link(accepted: seq<Accepted>, i: nat)
    requires i < |accepted|
  {
    var a := accepted[i];
    && a.basis == RowAfter(accepted, i)
    && a.result.revision == i && Aligned(a.result)
    && Prepare(a.basis, a.request) == Ok(Some(a.result.value))
  }

  ghost predicate Chain(accepted: seq<Accepted>) {
    forall i :: 0 <= i < |accepted| ==> Link(accepted, i)
  }

  /** A loaded row was the current one after some number of accepted writes. */
  ghost predicate Seen(accepted: seq<Accepted>, basis: Option<Stored>) {
    basis.Some? ==> 0 <= basis.value.revision < |accepted| && basis == RowAfter(accepted, basis.value.revision + 1)
  }

  ghost predicate Inv(s: State) {
    && Chain(s.accepted)
    && s.row == RowAfter(s.accepted, |s.accepted|)
    && forall p :: p in s.pending ==> Seen(s.accepted, s.pending[p].basis)
  }

  lemma AppendKeepsChain(accepted: seq<Accepted>, a: Accepted)
    requires Chain(accepted) && a.basis == RowAfter(accepted, |accepted|)
    requires a.result.revision == |accepted| && Aligned(a.result) && Prepare(a.basis, a.request) == Ok(Some(a.result.value))
    ensures Chain(accepted + [a])
    ensures forall basis :: Seen(accepted, basis) ==> Seen(accepted + [a], basis)
  {
    var longer := accepted + [a];
    forall i | 0 <= i < |longer| ensures Link(longer, i) {
      if i < |accepted| {
        assert Link(accepted, i);
        assert RowAfter(longer, i) == RowAfter(accepted, i);
      } else {
        assert RowAfter(longer, i) == RowAfter(accepted, i);
      }
    }
    forall basis | Seen(accepted, basis) ensures Seen(longer, basis) {
      if basis.Some? {
        assert RowAfter(longer, basis.value.revision + 1) == RowAfter(accepted, basis.value.revision + 1);
      }
    }
  }

  /** A save whose basis is no longer the current row is refused, so an accepted one was computed from the current row. */
  lemma SaveIsCompareAndSwap(s: State, p: nat, busy: bool)
    requires Inv(s) && p in s.pending
    ensures var t := Apply(s, Save(p, busy));
            && (t.accepted != s.accepted ==> s.pending[p].basis == s.row)
            && (s.pending[p].basis != s.row ==> t.row == s.row && t.accepted == s.accepted)
  {
    var basis := s.pending[p].basis;
    assert Seen(s.accepted, basis);
    if basis.Some? && s.row.Some? && basis.value.revision == s.row.value.revision {
      assert Link(s.accepted, |s.accepted| - 1);
    }
  }

  lemma StepKeeps(s: State, e: Event)
    requires Inv(s) && Enabled(s, e)
    ensures Inv(Apply(s, e))
  {
    if e.Load? {
      if s.row.Some? {
        assert Link(s.accepted, |s.accepted| - 1);
      }
    } else if e.Save? {
      SaveIsCompareAndSwap(s, e.process, e.busy);
      var t := Apply(s, e);
      if t.accepted != s.accepted {
        var a := t.accepted[|s.accepted|];
        assert t.accepted == s.accepted + [a];
        if s.row.Some? { assert Link(s.accepted, |s.accepted| - 1); }
        AppendKeepsChain(s.accepted, a);
      }
    }
  }

  predicate Possible(s: State, events: seq<Event>)
    decreases |events|
  {
    events == [] || (Enabled(s, events[0]) && Possible(Apply(s, events[0]), events[1..]))
  }

  function After(s: State, events: seq<Event>): State
    requires Possible(s, events)
    decreases |events|
  {
    if events == [] then s else After(Apply(s, events[0]), events[1..])
  }

  lemma {:induction false} RunKeeps(s: State, events: seq<Event>)
    requires Inv(s) && Possible(s, events)
    ensures Inv(After(s, events))
    ensures s.accepted <= After(s, events).accepted
    decreases |events|
  {
    if events != [] {
      StepKeeps(s, events[0]);
      RunKeeps(Apply(s, events[0]), events[1..]);
    }
  }

  /**
   However the processes interleave and crash, the accepted writes form one chain from the empty row: each was computed
   from the row its predecessor left, raised the revision by exactly one, and its control sequence is that revision.
   */
  lemma AcceptedWritesFormOneChain(events: seq<Event>, i: nat)
    requires Possible(EMPTY, events) && i < |After(EMPTY, events).accepted|
    ensures var accepted := After(EMPTY, events).accepted;
            && accepted[i].basis == RowAfter(accepted, i)
            && accepted[i].result.revision == i
            && (accepted[i].result.value.control.Some? ==> accepted[i].result.value.control.value.sequence == i)
            && Prepare(accepted[i].basis, accepted[i].request) == Ok(Some(accepted[i].result.value))
    ensures After(EMPTY, events).row == RowAfter(After(EMPTY, events).accepted, |After(EMPTY, events).accepted|)
  {
    RunKeeps(EMPTY, events);
    assert Link(After(EMPTY, events).accepted, i);
  }

  /** An accepted control update replaced the control state it expected, whatever happened around it. */
  lemma UpdatesReplaceWhatTheyExpect(events: seq<Event>, i: nat)
    requires Possible(EMPTY, events) && i < |After(EMPTY, events).accepted|
    requires After(EMPTY, events).accepted[i].request.Write?
    ensures var accepted := After(EMPTY, events).accepted;
            && StoredControl(RowAfter(accepted, i)) == accepted[i].request.expected
            && StoredControl(RowAfter(accepted, i + 1)) == Some(accepted[i].request.next)
            && (accepted[i].request.expected.None? ==> i == 0)
  {
    AcceptedWritesFormOneChain(events, i);
  }

  // ----- What a recovery undoes -----

  /** The control state stored at revision `n`. */
  function ControlAt(accepted: seq<Accepted>, n: nat): Option<Control>
    requires n < |accepted|
  {
    accepted[n].result.value.control
  }

  /** The request itself says that it stores another control state than it found. */
  predicate ChangesControl(a: Accepted) {
    Named(a.request).Some? && !SameControl(Named(a.request).value, if a.request.Write? then a.request.expected else StoredControl(a.basis))
  }

  /** What is stored changes at a revision exactly when its request says so. */
  lemma ChangeIsByRequest(accepted: seq<Accepted>, j: nat)
    requires Chain(accepted) && 0 < j < |accepted|
    ensures SameControl(ControlAt(accepted, j), ControlAt(accepted, j - 1)) <==> !ChangesControl(accepted[j])
    ensures Named(accepted[j].request).Some? ==> SameControl(ControlAt(accepted, j), Named(accepted[j].request).value)
  {
    assert Link(accepted, j);
    NamedIsStored(accepted[j].basis, accepted[j].request);
  }

  lemma {:induction false} UnchangedBetween(accepted: seq<Accepted>, n: nat, i: nat)
    requires Chain(accepted) && n <= i < |accepted|
    requires forall j :: n < j <= i ==> !ChangesControl(accepted[j])
    ensures SameControl(ControlAt(accepted, n), ControlAt(accepted, i))
    decreases i
  {
    if n < i {
      UnchangedBetween(accepted, n, i - 1);
      ChangeIsByRequest(accepted, i);
    }
  }

  /** Save `i` is a recovery that stores the control state that was read at revision `n`. */
  predicate RestoresControl(accepted: seq<Accepted>, n: nat, i: nat) {
    && n < i < |accepted| && accepted[i].request.Recover?
    && accepted[i].request.replacement == Some(ControlAt(accepted, n))
  }

  /**
   A recovery that stores the control state read at revision `n` loses nothing that was stored since exactly when every
   request accepted in between left the control state as it found it. Writes of other processes may interleave anywhere.
   */
  lemma RecoveryLosesNothingIffNothingChanged(events: seq<Event>, n: nat, i: nat)
    requires Possible(EMPTY, events) && RestoresControl(After(EMPTY, events).accepted, n, i)
    ensures var accepted := After(EMPTY, events).accepted;
            (forall j :: n < j < i ==> SameControl(ControlAt(accepted, i), ControlAt(accepted, j)))
            <==> (forall j :: n < j < i ==> !ChangesControl(accepted[j]))
  {
    RunKeeps(EMPTY, events);
    var accepted := After(EMPTY, events).accepted;
    ChangeIsByRequest(accepted, i);
    if forall j :: n < j < i ==> !ChangesControl(accepted[j]) {
      forall j | n < j < i ensures SameControl(ControlAt(accepted, i), ControlAt(accepted, j)) {
        UnchangedBetween(accepted, n, j);
      }
    } else {
      var j :| n < j < i && ChangesControl(accepted[j]);
      ChangeIsByRequest(accepted, j);
      if n < j - 1 { assert !SameControl(ControlAt(accepted, i), ControlAt(accepted, j)) || !SameControl(ControlAt(accepted, i), ControlAt(accepted, j - 1)); }
    }
  }

  /** Of what was stored last, it is the last change in between that decides: it survives only by naming what was read. */
  lemma LastChangeDecides(events: seq<Event>, n: nat, j: nat, i: nat)
    requires Possible(EMPTY, events) && RestoresControl(After(EMPTY, events).accepted, n, i) && n < j < i
    requires var accepted := After(EMPTY, events).accepted;
             ChangesControl(accepted[j]) && forall k :: j < k < i ==> !ChangesControl(accepted[k])
    ensures var accepted := After(EMPTY, events).accepted;
            SameControl(ControlAt(accepted, i), ControlAt(accepted, i - 1))
            <==> SameControl(Named(accepted[j].request).value, ControlAt(accepted, n))
  {
    RunKeeps(EMPTY, events);
    var accepted := After(EMPTY, events).accepted;
    ChangeIsByRequest(accepted, i);
    ChangeIsByRequest(accepted, j);
    UnchangedBetween(accepted, j, i - 1);
  }

  lemma Prepend(s: State, e: Event, rest: seq<Event>)
    requires Enabled(s, e) && Possible(Apply(s, e), rest)
    ensures Possible(s, [e] + rest) && After(s, [e] + rest) == After(Apply(s, e), rest)
  {
    assert ([e] + rest)[1..] == rest;
  }

  /** With nobody in between, what a request prepares is stored. */
  lemma LoadThenSave(s: State, p: nat, r: Request) returns (loaded: State, t: State)
    requires Inv(s) && p !in s.pending && StoredControl(s.row).Some? && s.row.value.revision < MAX_SAFE_INTEGER
    requires Prepare(s.row, r).Ok? && Prepare(s.row, r).value.Some?
    ensures Enabled(s, Load(p, r)) && loaded == Apply(s, Load(p, r)) && Enabled(loaded, Save(p, false)) && t == Apply(loaded, Save(p, false))
    ensures Inv(t) && p !in t.pending && |t.accepted| == |s.accepted| + 1 && s.accepted <= t.accepted
    ensures t.row.Some? && t.row == Some(t.accepted[|s.accepted|].result) && t.row.value.revision == s.row.value.revision + 1
    ensures t.row.value.value == Prepare(s.row, r).value.value
    ensures SameControl(StoredControl(t.row), if Named(r).Some? then Named(r).value else StoredControl(s.row))
  {
    assert Link(s.accepted, |s.accepted| - 1);
    loaded := Apply(s, Load(p, r));
    StepKeeps(s, Load(p, r));
    t := Apply(loaded, Save(p, false));
    StepKeeps(loaded, Save(p, false));
    NamedIsStored(s.row, r);
  }

  /** A write, and behind it a recovery with what was read before the write: the write is undone. */
  lemma RecoveryUndoesALaterWrite(s: State, w: Request, r: Request, p: nat)
    requires Inv(s) && p !in s.pending && s.row.Some? && s.row.value.revision < MAX_SAFE_INTEGER - 1
    requires w.Write? && StoredControl(s.row).Some? && w.expected == StoredControl(s.row) && ValidUpdate(w.expected, w.next)
    requires !SameControl(w.expected, Some(w.next))
    requires r.Recover? && r.controllerId == w.controllerId && r.replacement == Some(StoredControl(s.row))
    ensures var events := [Load(p, w), Save(p, false), Load(p, r), Save(p, false)];
            && Possible(s, events)
            && |After(s, events).accepted| == |s.accepted| + 2
            && ControlAt(After(s, events).accepted, |s.accepted|) == Some(w.next)
            && SameControl(StoredControl(After(s, events).row), w.expected)
  {
    var s1, s2 := LoadThenSave(s, p, w);
    var s3, s4 := LoadThenSave(s2, p, r);
    Prepend(s3, Save(p, false), []);
    Prepend(s2, Load(p, r), [Save(p, false)]);
    Prepend(s1, Save(p, false), [Load(p, r), Save(p, false)]);
    Prepend(s, Load(p, w), [Save(p, false), Load(p, r), Save(p, false)]);
    assert [Load(p, w)] + [Save(p, false), Load(p, r), Save(p, false)] == [Load(p, w), Save(p, false), Load(p, r), Save(p, false)];
  }
}
