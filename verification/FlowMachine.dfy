/**
 The flow state machine (src/flow/compile.ts:21-82) and the check that makes it safe to run (src/config/semantic.ts:129-189).
 An XState step is: the event is declared, every guard holds, take the target and the listed actions.
 */
module FlowMachine {
  import opened Basics
  import opened Flow

  datatype FlowEvent = FlowEvent(
    kind: EventType, authorizedActor: bool, activationPresent: bool, ticketOpen: bool, headMatches: bool, receiptValid: bool)

  datatype MachineResult = MachineResult(changed: bool, state: StateId, resume: Option<StateId>, actions: seq<Action>)

  datatype MachineError = UnknownState

  const NEEDS_HUMAN: StateId := "needs-human"
  const BLOCKED: StateId := "blocked"

  predicate Holds(g: Guard, e: FlowEvent) {
    match g
    case AuthorizedActor => e.authorizedActor
    case ActivationPresent => e.activationPresent
    case TicketOpen => e.ticketOpen
    case HeadMatches => e.headMatches
    case ReceiptValid => e.receiptValid
  }

  function Configured(flow: FlowDefinition, state: StateId, kind: EventType): Option<Transition> {
    if state in flow.states && kind in flow.states[state].on then Some(flow.states[state].on[kind]) else None
  }

  /** `snapshot.can`: a final state takes no event, whatever it declares. */
  predicate Can(flow: FlowDefinition, state: StateId, e: FlowEvent) {
    && flow.KindOf(state) != Some(Final)
    && Configured(flow, state, e.kind).Some?
    && forall g :: g in Configured(flow, state, e.kind).value.guards ==> Holds(g, e)
  }

  /** The loop over the actions: the last one that remembers or clears decides. */
  function ResumeAfter(actions: seq<Action>, from: StateId, resumeTarget: Option<StateId>, resume: Option<StateId>): Option<StateId> {
    if actions == [] then resume
    else
      var before := ResumeAfter(actions[..|actions| - 1], from, resumeTarget, resume);
      match actions[|actions| - 1]
      case RememberResumeState => Some(if resumeTarget.Some? then resumeTarget.value else from)
      case ClearResumeState => None
      case _ => before
  }

  /** `transition` */
  function Step(flow: FlowDefinition, state: StateId, resume: Option<StateId>, e: FlowEvent): Result<MachineResult, MachineError> {
    var configured := Configured(flow, state, e.kind);
    if configured.Some? && configured.value.target == RESUME && resume.None? then Ok(MachineResult(false, state, None, []))
    else if state !in flow.states then Err(UnknownState)
    else if !Can(flow, state, e) then Ok(MachineResult(false, state, resume, []))
    else
      var t := configured.value;
      Ok(MachineResult(true, if t.target == RESUME then resume.value else t.target,
                       ResumeAfter(t.actions, state, t.resumeTarget, resume), t.actions))
  }

  predicate Decides(a: Action) {
    a.RememberResumeState? || a.ClearResumeState?
  }

  /** Action `i` is the last of its list that remembers or clears. */
  predicate LastDecision(actions: seq<Action>, i: nat) {
    i < |actions| && Decides(actions[i]) && forall j :: i < j < |actions| ==> !Decides(actions[j])
  }

  /** What a list of actions leaves to resume: its last decision, or what there was. */
  ghost predicate Remembered(actions: seq<Action>, from: StateId, resumeTarget: Option<StateId>, resume: Option<StateId>, after: Option<StateId>) {
    && (forall i: nat :: LastDecision(actions, i) ==>
          after == if actions[i].ClearResumeState? then None else Some(if resumeTarget.Some? then resumeTarget.value else from))
    && ((forall a :: a in actions ==> !Decides(a)) ==> after == resume)
  }

  /** The flow declares the event where the ticket stands, the state is not final, every guard holds, and a resume has somewhere to go. */
  predicate MayFire(flow: FlowDefinition, state: StateId, resume: Option<StateId>, e: FlowEvent) {
    && state in flow.states && !flow.states[state].kind.Final? && e.kind in flow.states[state].on
    && (forall g :: g in flow.states[state].on[e.kind].guards ==> Holds(g, e))
    && (flow.states[state].on[e.kind].target == RESUME ==> resume.Some?)
  }

  /** A transition that may fire goes to its target, or back where it was paused, with its actions; any other changes nothing. */
  ghost predicate Moved(flow: FlowDefinition, state: StateId, resume: Option<StateId>, e: FlowEvent, r: MachineResult) {
    if MayFire(flow, state, resume, e) then
      var t := flow.states[state].on[e.kind];
      && r.changed && r.state == (if t.target == RESUME then resume.value else t.target)
      && r.actions == t.actions && Remembered(t.actions, state, t.resumeTarget, resume, r.resume)
    else r == MachineResult(false, state, resume, [])
  }

  lemma {:induction false} LastDecisionDecides(actions: seq<Action>, from: StateId, resumeTarget: Option<StateId>, resume: Option<StateId>)
    ensures Remembered(actions, from, resumeTarget, resume, ResumeAfter(actions, from, resumeTarget, resume))
  {
    if actions != [] {
      var front, last := actions[..|actions| - 1], actions[|actions| - 1];
      LastDecisionDecides(front, from, resumeTarget, resume);
      if Decides(last) {
        assert last in actions;
        forall i: nat | LastDecision(actions, i) ensures i == |actions| - 1 {
          assert !(i < |actions| - 1);
        }
      } else {
        FrontDecides(actions, from, resumeTarget, resume, ResumeAfter(front, from, resumeTarget, resume));
      }
    }
  }

  /** An action that does not decide may be left off the end. */
  lemma FrontDecides(actions: seq<Action>, from: StateId, resumeTarget: Option<StateId>, resume: Option<StateId>, after: Option<StateId>)
    requires actions != [] && !Decides(actions[|actions| - 1])
    requires Remembered(actions[..|actions| - 1], from, resumeTarget, resume, after)
    ensures Remembered(actions, from, resumeTarget, resume, after)
  {
    var front := actions[..|actions| - 1];
    forall i: nat | LastDecision(actions, i)
      ensures after == if actions[i].ClearResumeState? then None else Some(if resumeTarget.Some? then resumeTarget.value else from)
    {
      assert i < |front| && front[i] == actions[i];
      assert forall j :: i < j < |front| ==> front[j] == actions[j];
      assert LastDecision(front, i);
    }
    assert forall a :: a in front ==> a in actions;
  }

  /** What one step answers, for every flow, valid or not: an error exactly for an undeclared state. */
  lemma StepMoves(flow: FlowDefinition, state: StateId, resume: Option<StateId>, e: FlowEvent)
    ensures Step(flow, state, resume, e).Ok? <==> state in flow.states
    ensures state in flow.states ==> Moved(flow, state, resume, e, Step(flow, state, resume, e).value)
  {
    var configured := Configured(flow, state, e.kind);
    if configured.Some? {
      LastDecisionDecides(configured.value.actions, state, configured.value.resumeTarget, resume);
    }
  }

  method Transition(flow: FlowDefinition, state: StateId, resume: Option<StateId>, e: FlowEvent) returns (r: Result<MachineResult, MachineError>)
    ensures r == Step(flow, state, resume, e)
    ensures r.Ok? <==> state in flow.states
    ensures r.Ok? ==> Moved(flow, state, resume, e, r.value)
  {
    StepMoves(flow, state, resume, e);
    var configured := Configured(flow, state, e.kind);
    if configured.Some? && configured.value.target == RESUME && resume.None? {
      return Ok(MachineResult(false, state, None, []));
    }
    if state !in flow.states { return Err(UnknownState); }
    if !Can(flow, state, e) { return Ok(MachineResult(false, state, resume, [])); }
    var t := configured.value;
    var next := if t.target == RESUME then resume.value else t.target;
    var kept := resume;
    for i := 0 to |t.actions|
      invariant kept == ResumeAfter(t.actions[..i], state, t.resumeTarget, resume)
    {
      assert t.actions[..i + 1][..i] == t.actions[..i];
      if t.actions[i] == RememberResumeState {
        kept := Some(if t.resumeTarget.Some? then t.resumeTarget.value else state);
      } else if t.actions[i] == ClearResumeState {
        kept := None;
      }
    }
    assert t.actions[..|t.actions|] == t.actions;
    return Ok(MachineResult(true, next, kept, t.actions));
  }

  // ----- The semantic check -----

  /** Events in the order of their names. */
  const EVENTS: seq<EventType> := [
    AgentNeedsHuman, AgentSucceeded, AttemptsExhausted, AuthorizedComment, ChangeRequestClosed, ChangeRequestMerged,
    ChangeRequestUpdated, CiFailed, HumanAnswerAccepted, HumanAnswerCancelled, HumanAnswerUnclear, HumanApproved,
    HumanCancelled, HumanChangesRequested, HumanQuestion, HumanUnclear, ReviewApproved, ReviewChangesRequested]

  lemma AllEvents(e: EventType)
    ensures e in EVENTS
  {
    match e {
      case AgentNeedsHuman => assert EVENTS[0] == e; case AgentSucceeded => assert EVENTS[1] == e;
      case AttemptsExhausted => assert EVENTS[2] == e; case AuthorizedComment => assert EVENTS[3] == e;
      case ChangeRequestClosed => assert EVENTS[4] == e; case ChangeRequestMerged => assert EVENTS[5] == e;
      case ChangeRequestUpdated => assert EVENTS[6] == e; case CiFailed => assert EVENTS[7] == e;
      case HumanAnswerAccepted => assert EVENTS[8] == e; case HumanAnswerCancelled => assert EVENTS[9] == e;
      case HumanAnswerUnclear => assert EVENTS[10] == e; case HumanApproved => assert EVENTS[11] == e;
      case HumanCancelled => assert EVENTS[12] == e; case HumanChangesRequested => assert EVENTS[13] == e;
      case HumanQuestion => assert EVENTS[14] == e; case HumanUnclear => assert EVENTS[15] == e;
      case ReviewApproved => assert EVENTS[16] == e; case ReviewChangesRequested => assert EVENTS[17] == e;
    }
  }

  datatype SemanticError =
    | NoInitial | NoRouteState(activation: string)
    | FinalWithTransitions(state: StateId) | NoTransitions(state: StateId) | NoAgent(state: StateId)
    | ResumeNotAllowed(state: StateId, event: EventType) | NoTarget(state: StateId, event: EventType)
    | ResumeTargetNotAllowed(state: StateId, event: EventType) | NoResumeTarget(state: StateId, event: EventType)

  predicate PauseState(s: StateId) {
    s == NEEDS_HUMAN || s == BLOCKED
  }

  /** What the check demands of a transition. */
  predicate ValidTransition(flow: FlowDefinition, state: StateId, t: Flow.Transition) {
    && (if t.target == RESUME then PauseState(state) && flow.KindOf(state) == Some(Paused) else t.target in flow.states)
    && (t.resumeTarget.Some? ==> PauseState(t.target) && t.resumeTarget.value in flow.states)
  }

  predicate ValidState(flow: FlowDefinition, agents: set<string>, state: StateId)
    requires state in flow.states
  {
    var s := flow.states[state];
    && (s.kind.Final? <==> s.on == map[])
    && (s.agent.Some? && s.agent.value != "" ==> s.agent.value in agents)
    && forall e :: e in s.on ==> ValidTransition(flow, state, s.on[e])
  }

  predicate ValidFlow(flow: FlowDefinition, agents: set<string>) {
    && ValidEntries(flow)
    && forall s {:trigger ValidState(flow, agents, s)} :: s in flow.states ==> ValidState(flow, agents, s)
  }

  /** The errors one transition adds. */
  method CheckTransition(flow: FlowDefinition, state: StateId, event: EventType, t: Flow.Transition) returns (errors: seq<SemanticError>)
    ensures errors == [] <==> ValidTransition(flow, state, t)
    ensures ResumeNotAllowed(state, event) in errors <==> t.target == RESUME && (!PauseState(state) || flow.KindOf(state) != Some(Paused))
    ensures NoTarget(state, event) in errors <==> t.target != RESUME && t.target !in flow.states
    ensures ResumeTargetNotAllowed(state, event) in errors <==> t.resumeTarget.Some? && !PauseState(t.target)
    ensures NoResumeTarget(state, event) in errors <==> t.resumeTarget.Some? && t.resumeTarget.value !in flow.states
  {
    errors := [];
    if t.target == RESUME {
      if !PauseState(state) || flow.KindOf(state) != Some(Paused) { errors := errors + [ResumeNotAllowed(state, event)]; }
    } else if t.target !in flow.states {
      errors := errors + [NoTarget(state, event)];
    }
    if t.resumeTarget.Some? {
      if !PauseState(t.target) { errors := errors + [ResumeTargetNotAllowed(state, event)]; }
      if t.resumeTarget.value !in flow.states { errors := errors + [NoResumeTarget(state, event)]; }
    }
  }

  method CheckState(flow: FlowDefinition, agents: set<string>, state: StateId) returns (errors: seq<SemanticError>)
    requires state in flow.states
    ensures errors == [] <==> ValidState(flow, agents, state)
  {
    var s := flow.states[state];
    errors := [];
    if s.kind.Final? && s.on != map[] {
      errors := errors + [FinalWithTransitions(state)];
    } else if !s.kind.Final? && s.on == map[] {
      errors := errors + [NoTransitions(state)];
    }
    if s.agent.Some? && s.agent.value != "" && s.agent.value !in agents { errors := errors + [NoAgent(state)]; }
    ghost var opening := errors;
    for i := 0 to |EVENTS|
      invariant errors == [] <==> opening == [] && forall j :: 0 <= j < i && EVENTS[j] in s.on ==> ValidTransition(flow, state, s.on[EVENTS[j]])
    {
      if EVENTS[i] in s.on {
        var more := CheckTransition(flow, state, EVENTS[i], s.on[EVENTS[i]]);
        errors := errors + more;
      }
    }
    forall e | e in s.on ensures e in EVENTS { AllEvents(e); }
  }

  predicate ValidEntries(flow: FlowDefinition) {
    flow.initial in flow.states && forall l :: l in flow.routes ==> flow.routes[l] in flow.states
  }

  method CheckEntries(flow: FlowDefinition, activations: seq<string>) returns (errors: seq<SemanticError>)
    requires ToSet(activations) == flow.routes.Keys
    ensures errors == [] <==> ValidEntries(flow)
  {
    errors := [];
    if flow.initial !in flow.states { errors := [NoInitial]; }
    for i := 0 to |activations|
      invariant errors == [] <==>
                  flow.initial in flow.states && forall j :: 0 <= j < i ==> activations[j] in flow.routes && flow.routes[activations[j]] in flow.states
    {
      assert activations[i] in ToSet(activations);
      if flow.routes[activations[i]] !in flow.states { errors := errors + [NoRouteState(activations[i])]; }
    }
    forall l | l in flow.routes ensures l in activations { assert l in ToSet(activations); }
  }

  predicate ValidOneOf(flow: FlowDefinition, agents: set<string>, state: StateId) {
    state in flow.states && ValidState(flow, agents, state)
  }

  method CheckStates(flow: FlowDefinition, agents: set<string>, states: seq<StateId>) returns (errors: seq<SemanticError>)
    requires forall s :: s in states ==> s in flow.states
    ensures errors == [] <==> forall s :: s in states ==> ValidOneOf(flow, agents, s)
  {
    errors := [];
    for i := 0 to |states|
      invariant errors == [] <==> forall j :: 0 <= j < i ==> ValidOneOf(flow, agents, states[j])
    {
      var more := CheckState(flow, agents, states[i]);
      errors := errors + more;
    }
  }

  /** `validateSemantics`, its flow part; `activations` lists the labels of the activation routes. */
  method ValidateSemantics(flow: FlowDefinition, agents: set<string>, activations: seq<string>) returns (errors: seq<SemanticError>)
    requires ToSet(activations) == flow.routes.Keys && ToSet(flow.order) == flow.states.Keys
    ensures errors == [] <==> ValidFlow(flow, agents)
  {
    var entries := CheckEntries(flow, activations);
    var states := Sort(LexLe, flow.order);
    SameElements(states, flow.order);
    forall s ensures s in states <==> s in flow.states { assert s in ToSet(flow.order) <==> s in flow.order; }
    var rest := CheckStates(flow, agents, states);
    errors := entries + rest;
    if errors == [] {
      forall s | s in flow.states ensures ValidState(flow, agents, s) { assert ValidOneOf(flow, agents, s); }
    }
  }

  // ----- Runs of a validated flow -----

  datatype Position = Position(state: StateId, resume: Option<StateId>)

  predicate Declared(flow: FlowDefinition, p: Position) {
    p.state in flow.states && (p.resume.Some? ==> p.resume.value in flow.states)
  }

  function Move(flow: FlowDefinition, p: Position, e: FlowEvent): Position {
    var r := Step(flow, p.state, p.resume, e);
    if r.Ok? then Position(r.value.state, r.value.resume) else p
  }

  function Run(flow: FlowDefinition, p: Position, events: seq<FlowEvent>): Position
    decreases |events|
  {
    if events == [] then p else Run(flow, Move(flow, p, events[0]), events[1..])
  }

  predicate Fires(flow: FlowDefinition, p: Position, e: FlowEvent) {
    var r := Step(flow, p.state, p.resume, e);
    r.Ok? && r.value.changed
  }

  lemma {:induction false} ResumeDeclared(flow: FlowDefinition, actions: seq<Action>, from: StateId, resumeTarget: Option<StateId>, resume: Option<StateId>)
    requires from in flow.states && (resumeTarget.Some? ==> resumeTarget.value in flow.states) && (resume.Some? ==> resume.value in flow.states)
    ensures var r := ResumeAfter(actions, from, resumeTarget, resume); r.Some? ==> r.value in flow.states
  {
    if actions != [] {
      ResumeDeclared(flow, actions[..|actions| - 1], from, resumeTarget, resume);
    }
  }

  lemma MoveStaysDeclared(flow: FlowDefinition, agents: set<string>, p: Position, e: FlowEvent)
    requires ValidFlow(flow, agents) && Declared(flow, p)
    ensures Step(flow, p.state, p.resume, e).Ok? && Declared(flow, Move(flow, p, e))
  {
    if Fires(flow, p, e) {
      assert ValidState(flow, agents, p.state);
      var t := flow.states[p.state].on[e.kind];
      ResumeDeclared(flow, t.actions, p.state, t.resumeTarget, p.resume);
    }
  }

  /** From any activation entry, every run stays among declared states and remembers only declared ones. */
  lemma {:induction false} RunStaysDeclared(flow: FlowDefinition, agents: set<string>, p: Position, events: seq<FlowEvent>)
    requires ValidFlow(flow, agents) && Declared(flow, p)
    ensures Declared(flow, Run(flow, p, events))
    decreases |events|
  {
    if events != [] {
      MoveStaysDeclared(flow, agents, p, events[0]);
      RunStaysDeclared(flow, agents, Move(flow, p, events[0]), events[1..]);
    }
  }

  /** A transition fires exactly when its event is declared on a non-final state, all guards hold, and a resume has a target. */
  lemma FiresIff(flow: FlowDefinition, agents: set<string>, p: Position, e: FlowEvent)
    requires ValidFlow(flow, agents) && Declared(flow, p)
    ensures Fires(flow, p, e) <==>
              && e.kind in flow.states[p.state].on
              && (forall g :: g in flow.states[p.state].on[e.kind].guards ==> Holds(g, e))
              && (flow.states[p.state].on[e.kind].target == RESUME ==> p.resume.Some?)
    ensures !Fires(flow, p, e) ==> Move(flow, p, e) == p
  {
    assert ValidState(flow, agents, p.state);
  }

  /** A final state is never left and keeps what it remembers. */
  lemma {:induction false} FinalIsForever(flow: FlowDefinition, p: Position, events: seq<FlowEvent>)
    requires flow.KindOf(p.state) == Some(Final)
    ensures Run(flow, p, events) == p
    decreases |events|
  {
    if events != [] {
      FinalIsForever(flow, p, events[1..]);
    }
  }

  /** The last remembering or clearing action of a list remembers. */
  predicate Remembers(actions: seq<Action>) {
    actions != [] && (actions[|actions| - 1].RememberResumeState?
                      || (!actions[|actions| - 1].ClearResumeState? && Remembers(actions[..|actions| - 1])))
  }

  predicate Untouched(actions: seq<Action>) {
    RememberResumeState !in actions && ClearResumeState !in actions
  }

  lemma {:induction false} RememberedState(actions: seq<Action>, from: StateId, resumeTarget: Option<StateId>, resume: Option<StateId>)
    ensures Remembers(actions) ==> ResumeAfter(actions, from, resumeTarget, resume) == Some(if resumeTarget.Some? then resumeTarget.value else from)
    ensures Untouched(actions) ==> ResumeAfter(actions, from, resumeTarget, resume) == resume
  {
    if actions != [] {
      RememberedState(actions[..|actions| - 1], from, resumeTarget, resume);
    }
  }

  /** No step of the run remembers or clears. */
  predicate Quiet(flow: FlowDefinition, p: Position, events: seq<FlowEvent>)
    decreases |events|
  {
    events == []
    || ((Fires(flow, p, events[0]) ==> Untouched(Configured(flow, p.state, events[0].kind).value.actions))
        && Quiet(flow, Move(flow, p, events[0]), events[1..]))
  }

  lemma {:induction false} QuietKeepsResume(flow: FlowDefinition, p: Position, events: seq<FlowEvent>)
    requires Quiet(flow, p, events)
    ensures Run(flow, p, events).resume == p.resume
    decreases |events|
  {
    if events != [] {
      if Fires(flow, p, events[0]) {
        var t := Configured(flow, p.state, events[0].kind).value;
        RememberedState(t.actions, p.state, t.resumeTarget, p.resume);
      }
      QuietKeepsResume(flow, Move(flow, p, events[0]), events[1..]);
    }
  }

  /**
   A pause that remembers without naming a resume target comes back to the exact state it left: after any run that
   neither remembers nor clears, the `$resume` transition leads there.
   */
  lemma PauseComesBack(flow: FlowDefinition, p: Position, pause: FlowEvent, events: seq<FlowEvent>, resume: FlowEvent)
    requires Fires(flow, p, pause)
    requires Configured(flow, p.state, pause.kind).value.resumeTarget.None? && Remembers(Configured(flow, p.state, pause.kind).value.actions)
    requires Quiet(flow, Move(flow, p, pause), events)
    requires var q := Run(flow, Move(flow, p, pause), events);
             Fires(flow, q, resume) && Configured(flow, q.state, resume.kind).value.target == RESUME
    ensures Move(flow, Run(flow, Move(flow, p, pause), events), resume).state == p.state
  {
    var t := Configured(flow, p.state, pause.kind).value;
    RememberedState(t.actions, p.state, t.resumeTarget, p.resume);
    QuietKeepsResume(flow, Move(flow, p, pause), events);
  }
}
