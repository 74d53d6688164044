/**
 The publication path of a flow (src/runtime/reconcile.ts:1250-1291): which results must have been
 published for a ticket to have reached a stage. The source drains a first-in first-out queue of
 partial walks and answers only when exactly one walk first reaches the target.
 */
module FlowPaths {
  import opened Basics
  import opened Flow

  datatype PublicationKind = Comment | ChangeRequest | Review | Documentation

  /** Where publications of a state's result contract appear; migrated work publishes development as a comment. */
  function ResultPublicationKind(contract: Option<ResultContract>, migrated: bool): Option<PublicationKind> {
    match contract
    case Some(DocumentationResult) => Some(Documentation)
    case Some(Development) => Some(if migrated then Comment else ChangeRequest)
    case Some(Assessment) => Some(Comment)
    case Some(Plan) => Some(Comment)
    case Some(Diagnostic) => Some(Comment)
    case Some(Verification) => Some(Comment)
    case Some(ReviewResult) => Some(Review)
    case _ => None
  }

  /** The stage an activation label enters; None where the source throws. */
  function EntryStage(flow: FlowDefinition, activation: Option<string>): Option<StateId> {
    if activation.None? || activation.value == "" || activation.value == flow.activationLabel then Some(flow.initial)
    else if activation.value in flow.routes && flow.routes[activation.value] != "" then Some(flow.routes[activation.value])
    else None
  }

  const SUCCESS_EVENTS: seq<EventType> := [AgentSucceeded, ReviewApproved, HumanApproved, ChangeRequestMerged]

  // ----- Reference definition: labelled success paths -----

  datatype Hop = Hop(state: StateId, event: EventType)

  predicate Fires(flow: FlowDefinition, hop: Hop) {
    && hop.event in SUCCESS_EVENTS
    && flow.Target(hop.state, hop.event).Some?
    && flow.Target(hop.state, hop.event).value != RESUME
  }

  /** The state a walk along `p` stands in after its first `i` hops. */
  function StateAfter(flow: FlowDefinition, from: StateId, p: seq<Hop>, i: nat): StateId
    requires i <= |p|
  {
    if i == 0 then from
    else if Fires(flow, p[i - 1]) then flow.Target(p[i - 1].state, p[i - 1].event).value
    else ""
  }

  ghost predicate HopOk(flow: FlowDefinition, from: StateId, target: StateId, p: seq<Hop>, i: nat)
    requires i < |p|
  {
    Fires(flow, p[i]) && p[i].state == StateAfter(flow, from, p, i) && p[i].state != target
  }

  /** `p` leads from `from` to `target` by success events, never repeats a state, and meets the target only at its end. */
  ghost predicate IsSuccessPath(flow: FlowDefinition, from: StateId, target: StateId, p: seq<Hop>) {
    && (forall i :: 0 <= i < |p| ==> HopOk(flow, from, target, p, i))
    && (forall i, j :: 0 <= i < j < |p| ==> p[i].state != p[j].state)
    && StateAfter(flow, from, p, |p|) == target
  }

  function HopKind(flow: FlowDefinition, migrated: bool, hop: Hop): Option<PublicationKind> {
    match hop.event
    case AgentSucceeded => ResultPublicationKind(flow.ContractOf(hop.state), migrated)
    case ReviewApproved => Some(Review)
    case _ => None
  }

  function PathKinds(flow: FlowDefinition, migrated: bool, p: seq<Hop>): seq<PublicationKind> {
    if p == [] then []
    else
      var kind := HopKind(flow, migrated, p[0]);
      (if kind.Some? then [kind.value] else []) + PathKinds(flow, migrated, p[1..])
  }

  // ----- Enumeration of the paths -----

  /** Every continuation from `from` to `target` that avoids `seen`. */
  function Completions(flow: FlowDefinition, from: StateId, target: StateId, seen: set<StateId>): seq<seq<Hop>>
    decreases |flow.states.Keys - seen|, 5
  {
    if from == target then [[]]
    else if from in seen || from !in flow.states then []
    else
      assert flow.states.Keys - seen - {from} < flow.states.Keys - seen;
      assert |flow.states.Keys - (seen + {from})| < |flow.states.Keys - seen| by {
        assert flow.states.Keys - (seen + {from}) == flow.states.Keys - seen - {from};
      }
      CompletionsBy(flow, from, target, seen, SUCCESS_EVENTS)
  }

  function CompletionsBy(flow: FlowDefinition, from: StateId, target: StateId, seen: set<StateId>, events: seq<EventType>): seq<seq<Hop>>
    requires from !in seen && from in flow.states && |events| <= 4
    decreases |flow.states.Keys - seen|, |events|
  {
    if events == [] then []
    else
      var hop := Hop(from, events[0]);
      var rest := CompletionsBy(flow, from, target, seen, events[1..]);
      if !Fires(flow, hop) then rest
      else
        assert |flow.states.Keys - (seen + {from})| < |flow.states.Keys - seen| by {
          assert flow.states.Keys - (seen + {from}) == flow.states.Keys - seen - {from};
        }
        Map(p => [hop] + p, Completions(flow, flow.Target(from, events[0]).value, target, seen + {from})) + rest
  }

  /** The kinds published along the one success path, if there is exactly one. */
  function PublicationPath(flow: FlowDefinition, from: StateId, target: StateId, migrated: bool): Option<seq<PublicationKind>> {
    var all := Completions(flow, from, target, {});
    if |all| == 1 then Some(PathKinds(flow, migrated, all[0])) else None
  }

  // ----- The enumeration is exactly the reference definition -----

  ghost predicate Avoids(p: seq<Hop>, seen: set<StateId>) {
    forall i :: 0 <= i < |p| ==> p[i].state !in seen
  }

  ghost predicate AvoidingPath(flow: FlowDefinition, from: StateId, target: StateId, p: seq<Hop>, seen: set<StateId>) {
    IsSuccessPath(flow, from, target, p) && Avoids(p, seen)
  }

  lemma StateAfterShift(flow: FlowDefinition, from: StateId, p: seq<Hop>, i: nat)
    requires p != [] && i < |p|
    ensures StateAfter(flow, StateAfter(flow, from, p, 1), p[1..], i) == StateAfter(flow, from, p, i + 1)
  {
    if i > 0 { assert p[1..][i - 1] == p[i]; }
  }

  lemma PathHasTail(flow: FlowDefinition, from: StateId, target: StateId, p: seq<Hop>, seen: set<StateId>)
    requires p != [] && from != target && AvoidingPath(flow, from, target, p, seen)
    ensures AvoidingPath(flow, StateAfter(flow, from, p, 1), target, p[1..], seen + {from})
  {
    var tail := p[1..];
    assert HopOk(flow, from, target, p, 0);
    forall i | 0 <= i < |tail|
      ensures HopOk(flow, StateAfter(flow, from, p, 1), target, tail, i) && tail[i].state !in seen + {from}
    {
      assert tail[i] == p[i + 1];
      assert HopOk(flow, from, target, p, i + 1);
      StateAfterShift(flow, from, p, i);
    }
    forall i, j | 0 <= i < j < |tail| ensures tail[i].state != tail[j].state {
      assert tail[i] == p[i + 1] && tail[j] == p[j + 1];
    }
    StateAfterShift(flow, from, p, |tail|);
  }

  lemma TailMakesPath(flow: FlowDefinition, from: StateId, target: StateId, p: seq<Hop>, seen: set<StateId>)
    requires p != [] && from != target && from !in seen && p[0].state == from && Fires(flow, p[0])
    requires AvoidingPath(flow, StateAfter(flow, from, p, 1), target, p[1..], seen + {from})
    ensures AvoidingPath(flow, from, target, p, seen)
  {
    var tail := p[1..];
    forall i | 0 <= i < |p|
      ensures HopOk(flow, from, target, p, i) && p[i].state !in seen && (i > 0 ==> p[i].state != from)
    {
      if i > 0 {
        assert p[i] == tail[i - 1];
        assert HopOk(flow, StateAfter(flow, from, p, 1), target, tail, i - 1);
        StateAfterShift(flow, from, p, i - 1);
      }
    }
    forall i, j | 0 <= i < j < |p| ensures p[i].state != p[j].state {
      if i > 0 { assert p[i] == tail[i - 1] && p[j] == tail[j - 1]; }
    }
    StateAfterShift(flow, from, p, |tail|);
  }

  lemma PathStart(flow: FlowDefinition, from: StateId, target: StateId, p: seq<Hop>, seen: set<StateId>)
    ensures from == target ==> (AvoidingPath(flow, from, target, p, seen) <==> p == [])
    ensures from != target && AvoidingPath(flow, from, target, p, seen) ==>
              p != [] && p[0].state == from && from !in seen && from in flow.states && Fires(flow, p[0])
  {
    if p != [] && AvoidingPath(flow, from, target, p, seen) {
      assert HopOk(flow, from, target, p, 0);
    }
  }

  lemma {:induction false} CompletionsExact(flow: FlowDefinition, from: StateId, target: StateId, seen: set<StateId>, p: seq<Hop>)
    ensures p in Completions(flow, from, target, seen) <==> AvoidingPath(flow, from, target, p, seen)
    decreases |flow.states.Keys - seen|, 5
  {
    PathStart(flow, from, target, p, seen);
    if from != target && from !in seen && from in flow.states {
      assert flow.states.Keys - (seen + {from}) == flow.states.Keys - seen - {from};
      CompletionsByExact(flow, from, target, seen, SUCCESS_EVENTS, p);
    }
  }

  lemma {:induction false} CompletionsByExact(
    flow: FlowDefinition, from: StateId, target: StateId, seen: set<StateId>, events: seq<EventType>, p: seq<Hop>)
    requires from !in seen && from in flow.states && from != target && |events| <= 4
    ensures p in CompletionsBy(flow, from, target, seen, events) <==>
            p != [] && p[0].state == from && p[0].event in events && Fires(flow, p[0])
            && AvoidingPath(flow, from, target, p, seen)
    decreases |flow.states.Keys - seen|, |events|
  {
    if events != [] {
      var hop := Hop(from, events[0]);
      var rest := CompletionsBy(flow, from, target, seen, events[1..]);
      CompletionsByExact(flow, from, target, seen, events[1..], p);
      if Fires(flow, hop) {
        assert flow.states.Keys - (seen + {from}) == flow.states.Keys - seen - {from};
        var next := flow.Target(from, events[0]).value;
        var inner := Completions(flow, next, target, seen + {from});
        var mapped := Map(t => [hop] + t, inner);
        if p in mapped {
          var i :| 0 <= i < |mapped| && mapped[i] == p;
          assert p[1..] == inner[i];
          CompletionsExact(flow, next, target, seen + {from}, p[1..]);
          TailMakesPath(flow, from, target, p, seen);
        }
        if p != [] && p[0] == hop && AvoidingPath(flow, from, target, p, seen) {
          PathHasTail(flow, from, target, p, seen);
          CompletionsExact(flow, next, target, seen + {from}, p[1..]);
          var i :| 0 <= i < |inner| && inner[i] == p[1..];
          assert mapped[i] == [hop] + p[1..] == p;
        }
      }
    }
  }

  lemma {:induction false} CompletionsDistinct(flow: FlowDefinition, from: StateId, target: StateId, seen: set<StateId>)
    ensures Distinct(Completions(flow, from, target, seen))
    decreases |flow.states.Keys - seen|, 5
  {
    if from != target && from !in seen && from in flow.states {
      assert flow.states.Keys - (seen + {from}) == flow.states.Keys - seen - {from};
      CompletionsByDistinct(flow, from, target, seen, SUCCESS_EVENTS);
    }
  }

  lemma {:induction false} CompletionsByDistinct(
    flow: FlowDefinition, from: StateId, target: StateId, seen: set<StateId>, events: seq<EventType>)
    requires from !in seen && from in flow.states && from != target && |events| <= 4 && Distinct(events)
    ensures Distinct(CompletionsBy(flow, from, target, seen, events))
    decreases |flow.states.Keys - seen|, |events|
  {
    if events != [] {
      var hop := Hop(from, events[0]);
      var rest := CompletionsBy(flow, from, target, seen, events[1..]);
      CompletionsByDistinct(flow, from, target, seen, events[1..]);
      if Fires(flow, hop) {
        assert flow.states.Keys - (seen + {from}) == flow.states.Keys - seen - {from};
        var inner := Completions(flow, flow.Target(from, events[0]).value, target, seen + {from});
        CompletionsDistinct(flow, flow.Target(from, events[0]).value, target, seen + {from});
        var mapped := Map(t => [hop] + t, inner);
        forall i, j | 0 <= i < j < |mapped + rest| ensures (mapped + rest)[i] != (mapped + rest)[j] {
          if j < |mapped| {
            assert mapped[i][1..] == inner[i] && mapped[j][1..] == inner[j];
          } else if i < |mapped| {
            CompletionsByExact(flow, from, target, seen, events[1..], rest[j - |mapped|]);
            assert mapped[i][0] == hop;
          }
        }
      }
    }
  }

  /** `p` is the one success path. */
  ghost predicate OnlyPath(flow: FlowDefinition, from: StateId, target: StateId, p: seq<Hop>) {
    IsSuccessPath(flow, from, target, p) && forall q :: IsSuccessPath(flow, from, target, q) ==> q == p
  }

  lemma OnlyPathAnswered(flow: FlowDefinition, from: StateId, target: StateId, migrated: bool, p: seq<Hop>)
    requires OnlyPath(flow, from, target, p)
    ensures PublicationPath(flow, from, target, migrated) == Some(PathKinds(flow, migrated, p))
  {
    var all := Completions(flow, from, target, {});
    PathsEnumerated(flow, from, target);
    assert p in all;
    DistinctConstant(all, p);
  }

  /**
   The path function answers exactly when there is one success path to the target, and then
   with the kinds published along it, in order.
   */
  lemma UniqueSuccessPath(flow: FlowDefinition, from: StateId, target: StateId, migrated: bool)
    ensures PublicationPath(flow, from, target, migrated).Some? <==> exists p :: OnlyPath(flow, from, target, p)
    ensures forall p :: OnlyPath(flow, from, target, p) ==>
              PublicationPath(flow, from, target, migrated) == Some(PathKinds(flow, migrated, p))
  {
    var all := Completions(flow, from, target, {});
    if |all| == 1 {
      PathsEnumerated(flow, from, target);
      assert all[0] in all;
      assert OnlyPath(flow, from, target, all[0]);
    }
    forall p | OnlyPath(flow, from, target, p)
      ensures PublicationPath(flow, from, target, migrated) == Some(PathKinds(flow, migrated, p))
    {
      OnlyPathAnswered(flow, from, target, migrated, p);
    }
  }

  lemma PathsEnumerated(flow: FlowDefinition, from: StateId, target: StateId)
    ensures forall p :: p in Completions(flow, from, target, {}) <==> IsSuccessPath(flow, from, target, p)
    ensures Distinct(Completions(flow, from, target, {}))
  {
    forall p ensures p in Completions(flow, from, target, {}) <==> IsSuccessPath(flow, from, target, p) {
      CompletionsExact(flow, from, target, {}, p);
      assert Avoids(p, {});
    }
    CompletionsDistinct(flow, from, target, {});
  }

  // ----- The source's queue -----

  datatype Partial = Partial(stateId: StateId, kinds: seq<PublicationKind>, visited: set<StateId>)

  function Child(flow: FlowDefinition, migrated: bool, current: Partial, event: EventType): Partial
    requires Fires(flow, Hop(current.stateId, event))
  {
    var kind := HopKind(flow, migrated, Hop(current.stateId, event));
    Partial(flow.Target(current.stateId, event).value,
            if kind.Some? then current.kinds + [kind.value] else current.kinds,
            current.visited + {current.stateId})
  }

  function Children(flow: FlowDefinition, migrated: bool, current: Partial, events: seq<EventType>): seq<Partial> {
    if events == [] then []
    else if Fires(flow, Hop(current.stateId, events[0])) then
      [Child(flow, migrated, current, events[0])] + Children(flow, migrated, current, events[1..])
    else Children(flow, migrated, current, events[1..])
  }

  /** What a queued walk will contribute to the matches. */
  ghost function Yield(flow: FlowDefinition, migrated: bool, target: StateId, entry: Partial): seq<seq<PublicationKind>> {
    Map(p => entry.kinds + PathKinds(flow, migrated, p), Completions(flow, entry.stateId, target, entry.visited))
  }

  ghost function Yielder(flow: FlowDefinition, migrated: bool, target: StateId): Partial -> seq<seq<PublicationKind>> {
    (entry: Partial) => Yield(flow, migrated, target, entry)
  }

  ghost function YieldAll(flow: FlowDefinition, migrated: bool, target: StateId, queue: seq<Partial>): seq<seq<PublicationKind>> {
    FlatMap(Yielder(flow, migrated, target), queue)
  }

  lemma ChildYield(flow: FlowDefinition, migrated: bool, target: StateId, current: Partial, event: EventType)
    requires Fires(flow, Hop(current.stateId, event))
    ensures var child := Child(flow, migrated, current, event);
            var hop := Hop(current.stateId, event);
            Map((p: seq<Hop>) => current.kinds + PathKinds(flow, migrated, p),
                Map((p: seq<Hop>) => [hop] + p, Completions(flow, child.stateId, target, child.visited)))
            == Yield(flow, migrated, target, child)
  {
    var hop := Hop(current.stateId, event);
    var child := Child(flow, migrated, current, event);
    var inner := Completions(flow, child.stateId, target, child.visited);
    forall i | 0 <= i < |inner|
      ensures current.kinds + PathKinds(flow, migrated, [hop] + inner[i]) == child.kinds + PathKinds(flow, migrated, inner[i])
    {
      assert ([hop] + inner[i])[1..] == inner[i];
    }
  }

  /** Expanding a walk into its children loses and invents nothing. */
  lemma {:induction false} ExpandKeepsYield(flow: FlowDefinition, migrated: bool, target: StateId, current: Partial, events: seq<EventType>)
    requires current.stateId !in current.visited && current.stateId in flow.states && current.stateId != target && |events| <= 4
    ensures YieldAll(flow, migrated, target, Children(flow, migrated, current, events))
         == Map(p => current.kinds + PathKinds(flow, migrated, p), CompletionsBy(flow, current.stateId, target, current.visited, events))
    decreases |events|
  {
    if events != [] {
      var f := (p: seq<Hop>) => current.kinds + PathKinds(flow, migrated, p);
      var hop := Hop(current.stateId, events[0]);
      var kids := Children(flow, migrated, current, events[1..]);
      var rest := CompletionsBy(flow, current.stateId, target, current.visited, events[1..]);
      ExpandKeepsYield(flow, migrated, target, current, events[1..]);
      if Fires(flow, hop) {
        var child := Child(flow, migrated, current, events[0]);
        var mapped := Map((p: seq<Hop>) => [hop] + p, Completions(flow, child.stateId, target, child.visited));
        ChildYield(flow, migrated, target, current, events[0]);
        MapAppend(f, mapped, rest);
        assert ([child] + kids)[1..] == kids;
      }
    }
  }

  /** Nodes the queue still has to visit below a walk: the loop's measure. */
  ghost function Work(flow: FlowDefinition, target: StateId, stateId: StateId, visited: set<StateId>): nat
    decreases |flow.states.Keys - visited|, 5
  {
    if stateId == target || stateId in visited || stateId !in flow.states then 1
    else
      assert flow.states.Keys - (visited + {stateId}) == flow.states.Keys - visited - {stateId};
      1 + WorkBy(flow, target, stateId, visited, SUCCESS_EVENTS)
  }

  ghost function WorkBy(flow: FlowDefinition, target: StateId, stateId: StateId, visited: set<StateId>, events: seq<EventType>): nat
    requires stateId !in visited && stateId in flow.states && |events| <= 4
    decreases |flow.states.Keys - visited|, |events|
  {
    if events == [] then 0
    else
      assert flow.states.Keys - (visited + {stateId}) == flow.states.Keys - visited - {stateId};
      (if Fires(flow, Hop(stateId, events[0]))
       then Work(flow, target, flow.Target(stateId, events[0]).value, visited + {stateId}) else 0)
      + WorkBy(flow, target, stateId, visited, events[1..])
  }

  ghost function Worker(flow: FlowDefinition, target: StateId): Partial -> nat {
    (entry: Partial) => Work(flow, target, entry.stateId, entry.visited)
  }

  ghost function WorkAll(flow: FlowDefinition, target: StateId, queue: seq<Partial>): nat {
    Total(Worker(flow, target), queue)
  }

  lemma {:induction false} ExpandSpendsWork(flow: FlowDefinition, migrated: bool, target: StateId, current: Partial, events: seq<EventType>)
    requires current.stateId !in current.visited && current.stateId in flow.states && |events| <= 4
    ensures WorkAll(flow, target, Children(flow, migrated, current, events))
         == WorkBy(flow, target, current.stateId, current.visited, events)
  {
    if events != [] {
      ExpandSpendsWork(flow, migrated, target, current, events[1..]);
      if Fires(flow, Hop(current.stateId, events[0])) {
        var kids := Children(flow, migrated, current, events[1..]);
        var child := Child(flow, migrated, current, events[0]);
        assert ([child] + kids)[1..] == kids;
      }
    }
  }

  lemma NextChild(flow: FlowDefinition, migrated: bool, current: Partial, events: seq<EventType>, i: nat, pushed: seq<Partial>)
    requires i < |events|
    ensures pushed + Children(flow, migrated, current, events[i..])
            == (if Fires(flow, Hop(current.stateId, events[i])) then pushed + [Child(flow, migrated, current, events[i])] else pushed)
               + Children(flow, migrated, current, events[i + 1..])
  {
    assert events[i..][0] == events[i] && events[i..][1..] == events[i + 1..];
  }

  /** `for (const event of [...])`: the walks pushed for one dequeued walk. */
  method Push(flow: FlowDefinition, migrated: bool, current: Partial) returns (pushed: seq<Partial>)
    ensures pushed == Children(flow, migrated, current, SUCCESS_EVENTS)
  {
    pushed := [];
    var i := 0;
    while i < |SUCCESS_EVENTS|
      invariant 0 <= i <= |SUCCESS_EVENTS|
      invariant pushed + Children(flow, migrated, current, SUCCESS_EVENTS[i..]) == Children(flow, migrated, current, SUCCESS_EVENTS)
    {
      var event := SUCCESS_EVENTS[i];
      NextChild(flow, migrated, current, SUCCESS_EVENTS, i, pushed);
      if Fires(flow, Hop(current.stateId, event)) {
        pushed := pushed + [Child(flow, migrated, current, event)];
      }
      i := i + 1;
    }
  }

  /** What is owed in all: the walks recorded and those the queue will still yield. */
  ghost function Owed(flow: FlowDefinition, migrated: bool, target: StateId, matches: seq<seq<PublicationKind>>, queue: seq<Partial>)
    : multiset<seq<PublicationKind>>
  {
    multiset(matches + YieldAll(flow, migrated, target, queue))
  }

  lemma RecordStep(flow: FlowDefinition, migrated: bool, target: StateId, matches: seq<seq<PublicationKind>>, queue: seq<Partial>)
    requires queue != [] && queue[0].stateId == target
    ensures Owed(flow, migrated, target, matches + [queue[0].kinds], queue[1..]) == Owed(flow, migrated, target, matches, queue)
  {
    var kinds := queue[0].kinds;
    assert kinds + PathKinds(flow, migrated, []) == kinds;
    assert Yield(flow, migrated, target, queue[0]) == [kinds];
    assert matches + ([kinds] + YieldAll(flow, migrated, target, queue[1..])) == matches + [kinds] + YieldAll(flow, migrated, target, queue[1..]);
  }

  lemma DropStep(flow: FlowDefinition, migrated: bool, target: StateId, matches: seq<seq<PublicationKind>>, queue: seq<Partial>)
    requires queue != [] && queue[0].stateId != target
    requires queue[0].stateId in queue[0].visited || queue[0].stateId !in flow.states
    ensures Owed(flow, migrated, target, matches, queue[1..]) == Owed(flow, migrated, target, matches, queue)
  {
    assert Yield(flow, migrated, target, queue[0]) == [];
    assert [] + YieldAll(flow, migrated, target, queue[1..]) == YieldAll(flow, migrated, target, queue[1..]);
  }

  lemma ExpandStep(flow: FlowDefinition, migrated: bool, target: StateId, matches: seq<seq<PublicationKind>>, queue: seq<Partial>)
    requires queue != [] && queue[0].stateId != target
    requires queue[0].stateId !in queue[0].visited && queue[0].stateId in flow.states
    ensures var next := queue[1..] + Children(flow, migrated, queue[0], SUCCESS_EVENTS);
            && Owed(flow, migrated, target, matches, next) == Owed(flow, migrated, target, matches, queue)
            && WorkAll(flow, target, next) < WorkAll(flow, target, queue)
  {
    var current, rest := queue[0], queue[1..];
    var pushed := Children(flow, migrated, current, SUCCESS_EVENTS);
    ExpandKeepsYield(flow, migrated, target, current, SUCCESS_EVENTS);
    ExpandSpendsWork(flow, migrated, target, current, SUCCESS_EVENTS);
    FlatMapAppend(Yielder(flow, migrated, target), rest, pushed);
    TotalAppend(Worker(flow, target), rest, pushed);
    assert Worker(flow, target)(current) == Work(flow, target, current.stateId, current.visited);
    assert YieldAll(flow, migrated, target, pushed) == Yield(flow, migrated, target, current);
    SwapParts(matches, Yield(flow, migrated, target, current), YieldAll(flow, migrated, target, rest));
  }

  ghost function Goal(flow: FlowDefinition, migrated: bool, from: StateId, target: StateId): seq<seq<PublicationKind>> {
    Map(p => PathKinds(flow, migrated, p), Completions(flow, from, target, {}))
  }

  lemma InitialYield(flow: FlowDefinition, migrated: bool, from: StateId, target: StateId)
    ensures YieldAll(flow, migrated, target, [Partial(from, [], {})]) == Goal(flow, migrated, from, target)
  {
    var entry := Partial(from, [], {});
    assert Yield(flow, migrated, target, entry) == Goal(flow, migrated, from, target) by {
      forall p: seq<Hop> ensures entry.kinds + PathKinds(flow, migrated, p) == PathKinds(flow, migrated, p) {
      }
    }
    var f := Yielder(flow, migrated, target);
    assert FlatMap(f, [entry]) == f(entry) + FlatMap(f, [entry][1..]);
    assert f(entry) == Yield(flow, migrated, target, entry);
  }

  /**
   The source's loop: a first-in first-out queue of walks, each abandoned when it repeats a state
   or leaves the declared states, and recorded when it reaches the target.
   */
  method Drain(flow: FlowDefinition, migrated: bool, from: StateId, target: StateId) returns (matches: seq<seq<PublicationKind>>)
    ensures multiset(matches) == multiset(Goal(flow, migrated, from, target))
  {
    var queue := [Partial(from, [], {})];
    matches := [];
    InitialYield(flow, migrated, from, target);
    assert matches + Goal(flow, migrated, from, target) == Goal(flow, migrated, from, target);
    while queue != []
      invariant Owed(flow, migrated, target, matches, queue) == multiset(Goal(flow, migrated, from, target))
      decreases WorkAll(flow, target, queue)
    {
      var current := queue[0];
      if current.stateId == target {
        RecordStep(flow, migrated, target, matches, queue);
        matches, queue := matches + [current.kinds], queue[1..];
        continue;
      }
      if current.stateId in current.visited || current.stateId !in flow.states {
        DropStep(flow, migrated, target, matches, queue);
        queue := queue[1..];
        continue;
      }
      ExpandStep(flow, migrated, target, matches, queue);
      var pushed := Push(flow, migrated, current);
      queue := queue[1..] + pushed;
    }
    assert matches + [] == matches;
  }

  function PublicationPathOf(flow: FlowDefinition, target: StateId, activation: Option<string>, start: Option<StateId>)
    : Result<Option<seq<PublicationKind>>, string>
  {
    var from := if start.Some? then start else EntryStage(flow, activation);
    if from.None? then Err("activation route is not configured in the pinned flow")
    else Ok(PublicationPath(flow, from.value, target, start.Some? && start.value != ""))
  }

  method SuccessfulPublicationPath(flow: FlowDefinition, target: StateId, activation: Option<string>, start: Option<StateId>)
    returns (r: Result<Option<seq<PublicationKind>>, string>)
    ensures r == PublicationPathOf(flow, target, activation, start)
  {
    var from := if start.Some? then start else EntryStage(flow, activation);
    if from.None? { return Err("activation route is not configured in the pinned flow"); }
    var migrated := start.Some? && start.value != "";
    var matches := Drain(flow, migrated, from.value, target);
    ghost var goal := Goal(flow, migrated, from.value, target);
    SameElements(matches, goal);
    if |matches| != 1 { return Ok(None); }
    assert matches[0] in goal;
    return Ok(Some(matches[0]));
  }
}
