/**
 Which stage a ticket moves to when its workflow configuration changes (src/config/migrations.ts:34-58, 91-125, 149-229).
 Digests are modelled by the values they are taken of.
 */
module Migrations {
  import opened Basics
  import opened Flow

  datatype MigrationError =
    | UnknownRoute | UnknownStage | OutsideRoute | NoSingleRule | NoMapping | InvalidSourceState
    | ReplayForbidden | ReplayOffRoute | ReplayNotAgent | ReplayTooLate
    | UnknownDestination | ContractsChanged | StageContractChanged

  // ----- The success route of an activation label -----

  function StageAfter(flow: FlowDefinition, stage: StateId): Option<StateId> {
    if flow.Target(stage, AgentSucceeded).Some? then flow.Target(stage, AgentSucceeded)
    else if flow.Target(stage, HumanApproved).Some? then flow.Target(stage, HumanApproved)
    else flow.Target(stage, ReviewApproved)
  }

  function Entry(flow: FlowDefinition, activation: string): Option<StateId> {
    if activation == flow.activationLabel then (if flow.initial != "" then Some(flow.initial) else None)
    else if activation in flow.routes && flow.routes[activation] != "" then Some(flow.routes[activation])
    else None
  }

  function RouteFrom(flow: FlowDefinition, stage: Option<StateId>, route: seq<StateId>): Result<seq<StateId>, MigrationError>
    decreases flow.states.Keys - ToSet(route)
  {
    if stage.None? || stage.value == "" || stage.value in route then Ok(route)
    else if stage.value !in flow.states then Err(UnknownStage)
    else
      assert stage.value in flow.states.Keys - ToSet(route);
      assert ToSet(route + [stage.value]) == ToSet(route) + {stage.value};
      RouteFrom(flow, StageAfter(flow, stage.value), route + [stage.value])
  }

  function Route(flow: FlowDefinition, activation: string): Result<seq<StateId>, MigrationError> {
    var entry := Entry(flow, activation);
    if entry.None? then Err(UnknownRoute) else RouteFrom(flow, entry, [])
  }

  /** `routeStages` */
  method RouteStages(flow: FlowDefinition, activation: string) returns (r: Result<seq<StateId>, MigrationError>)
    ensures r == Route(flow, activation)
  {
    var stage := Entry(flow, activation);
    if stage.None? { return Err(UnknownRoute); }
    var result := [];
    while stage.Some? && stage.value != "" && stage.value !in result
      invariant Route(flow, activation) == RouteFrom(flow, stage, result)
      invariant ToSet(result) <= flow.states.Keys
      decreases flow.states.Keys - ToSet(result)
    {
      if stage.value !in flow.states { return Err(UnknownStage); }
      assert stage.value in flow.states.Keys - ToSet(result);
      assert ToSet(result + [stage.value]) == ToSet(result) + {stage.value};
      result := result + [stage.value];
      stage := StageAfter(flow, stage.value);
    }
    return Ok(result);
  }

  /** The stages from the entry by success edges, up to the first that ends the route or was met before. */
  ghost predicate IsRoute(flow: FlowDefinition, entry: StateId, route: seq<StateId>) {
    && route != [] && route[0] == entry && Distinct(route)
    && (forall s :: s in route ==> s != "" && s in flow.states)
    && (forall i :: 0 <= i < |route| - 1 ==> Follows(flow, route, i))
    && Closes(StageAfter(flow, route[|route| - 1]), route)
  }

  ghost predicate Follows(flow: FlowDefinition, route: seq<StateId>, i: nat)
    requires i + 1 < |route|
  {
    StageAfter(flow, route[i]) == Some(route[i + 1])
  }

  predicate Closes(next: Option<StateId>, route: seq<StateId>) {
    next.None? || next.value == "" || next.value in route
  }

  /** A walk under way: distinct declared stages by success edges, with `stage` next. */
  ghost predicate Partial(flow: FlowDefinition, entry: StateId, stage: Option<StateId>, route: seq<StateId>) {
    && Distinct(route)
    && (forall s :: s in route ==> s != "" && s in flow.states)
    && (forall i :: 0 <= i < |route| - 1 ==> Follows(flow, route, i))
    && (if route == [] then stage == Some(entry) && entry != "" else route[0] == entry && StageAfter(flow, route[|route| - 1]) == stage)
  }

  lemma {:induction false} RouteFromSound(flow: FlowDefinition, entry: StateId, stage: Option<StateId>, route: seq<StateId>)
    requires Partial(flow, entry, stage, route)
    ensures var r := RouteFrom(flow, stage, route);
            r.Ok? ==> IsRoute(flow, entry, r.value)
    decreases flow.states.Keys - ToSet(route)
  {
    if !Closes(stage, route) && stage.value in flow.states {
      var longer := route + [stage.value];
      assert stage.value in flow.states.Keys - ToSet(route);
      assert ToSet(longer) == ToSet(route) + {stage.value};
      forall i | 0 <= i < |longer| - 1 ensures Follows(flow, longer, i) {
        if i < |route| - 1 { assert Follows(flow, route, i); }
      }
      RouteFromSound(flow, entry, StageAfter(flow, stage.value), longer);
    }
  }

  lemma {:induction false} RouteFromFollows(flow: FlowDefinition, entry: StateId, route: seq<StateId>, k: nat)
    requires IsRoute(flow, entry, route) && k <= |route|
    ensures RouteFrom(flow, if k == 0 then Some(entry) else StageAfter(flow, route[k - 1]), route[..k]) == Ok(route)
    decreases |route| - k
  {
    if k < |route| {
      if k > 0 { assert Follows(flow, route, k - 1); }
      assert route[..k] + [route[k]] == route[..k + 1];
      assert route[k] in route;
      assert route[k] !in route[..k];
      RouteFromFollows(flow, entry, route, k + 1);
    } else {
      assert route[..k] == route;
    }
  }

  /** The answer is the one route of the label: it exists as soon as the success edges stay among declared stages. */
  lemma RouteIsTheSuccessRoute(flow: FlowDefinition, activation: string, route: seq<StateId>)
    requires Entry(flow, activation).Some?
    ensures Route(flow, activation) == Ok(route) <==> IsRoute(flow, Entry(flow, activation).value, route)
  {
    var entry := Entry(flow, activation).value;
    RouteFromSound(flow, entry, Some(entry), []);
    if IsRoute(flow, entry, route) {
      RouteFromFollows(flow, entry, route, 0);
      assert route[..0] == [];
    }
  }

  // ----- Bundles and rules -----

  datatype Mapping = Mapping(target: StateId, replay: seq<StateId>, retain: seq<StateId>)

  datatype Rule = Rule(id: string, source: string, sourceFlow: string, targetFlow: string, activation: string, states: map<StateId, Mapping>)

  /** `contracts` stands for the contents of the contract and schema files. */
  datatype Bundle = Bundle(revision: string, flow: FlowDefinition, contracts: string, rules: seq<Rule>)

  function WithoutAgent(state: FlowState): FlowState {
    state.(agent := None)
  }

  /** What `behaviorDigest` is taken of: the flow without its agents, in no particular key order, and the contracts. */
  function Behavior(b: Bundle): (FlowDefinition, string) {
    (b.flow.(order := [], states := map s | s in b.flow.states :: WithoutAgent(b.flow.states[s])), b.contracts)
  }

  function StageContract(flow: FlowDefinition, stage: StateId): Option<FlowState> {
    if stage in flow.states then Some(WithoutAgent(flow.states[stage])) else None
  }

  /** `validateMigrationRule` accepts the rule for this bundle. */
  predicate ValidRule(rule: Rule, target: Bundle) {
    rule.targetFlow == target.flow.id ==>
      forall s :: s in rule.states ==> ValidMapping(rule.states[s], target.flow, Route(target.flow, rule.activation))
  }

  predicate ValidMapping(m: Mapping, flow: FlowDefinition, route: Result<seq<StateId>, MigrationError>) {
    && (forall s :: s in [m.target] + m.replay ==> flow.KindOf(s) == Some(Agent) && route.Ok? && s in route.value)
    && (forall s :: s in m.retain ==> flow.KindOf(s) == Some(Agent))
  }

  // ----- Selection -----

  datatype Basis = Unchanged(behavior: (FlowDefinition, string)) | ByRule(rule: Rule)

  datatype Selection = Selection(stage: StateId, retain: seq<StateId>, basis: Basis, noop: bool)

  function Position(route: seq<StateId>, stage: StateId): (i: int)
    ensures -1 <= i < |route|
    ensures i >= 0 ==> route[i] == stage && stage !in route[..i]
    ensures i == -1 <==> stage !in route
  {
    if route == [] then -1
    else if route[0] == stage then 0
    else
      var i := Position(route[1..], stage);
      if i == -1 then -1
      else
        assert route[..i + 1] == [route[0]] + route[1..][..i];
        i + 1
  }

  predicate IsFor(rule: Rule, source: Bundle, target: Bundle, activation: string) {
    rule.source == source.revision && rule.sourceFlow == source.flow.id && rule.targetFlow == target.flow.id && rule.activation == activation
  }

  function RulesFor(source: Bundle, target: Bundle, activation: string): seq<Rule> {
    Filter((r: Rule) => IsFor(r, source, target, activation), target.rules)
  }

  /** The stage, the results to keep and the grounds, before a replay is considered. */
  function Ground(source: Bundle, target: Bundle, activation: string, state: StateId, replay: Option<StateId>, route: seq<StateId>)
    : Result<(StateId, seq<StateId>, Basis), MigrationError>
    requires state in route
  {
    if Behavior(source) == Behavior(target) then Ok((state, route[..Position(route, state)], Unchanged(Behavior(source))))
    else
      var rules := RulesFor(source, target, activation);
      if |rules| != 1 then Err(NoSingleRule)
      else if state !in rules[0].states then Err(NoMapping)
      else if exists s :: s in rules[0].states && (s !in source.flow.states || s !in route) then Err(InvalidSourceState)
      else
        var mapping := rules[0].states[state];
        if replay.Some? && replay.value !in mapping.replay then Err(ReplayForbidden)
        else Ok((mapping.target, mapping.retain, ByRule(rules[0])))
  }

  function ReplayStage(target: Bundle, route: seq<StateId>, stage: StateId, replay: Option<StateId>): Result<StateId, MigrationError> {
    if replay.None? then Ok(stage)
    else if replay.value !in route then Err(ReplayOffRoute)
    else if target.flow.KindOf(replay.value) != Some(Agent) then Err(ReplayNotAgent)
    else if Position(route, replay.value) > Position(route, stage) then Err(ReplayTooLate)
    else Ok(replay.value)
  }

  function Kept(route: seq<StateId>, retain: seq<StateId>, stage: StateId): seq<StateId> {
    Filter((s: StateId) => 0 <= Position(route, s) < Position(route, stage), retain)
  }

  /** `selectMigration` */
  function Select(source: Bundle, target: Bundle, activation: string, state: StateId, replay: Option<StateId>)
    : Result<Selection, MigrationError>
  {
    var sourceRoute := Route(source.flow, activation);
    var targetRoute := Route(target.flow, activation);
    if sourceRoute.Err? then Err(sourceRoute.error)
    else if targetRoute.Err? then Err(targetRoute.error)
    else if state !in sourceRoute.value then Err(OutsideRoute)
    else
      var ground := Ground(source, target, activation, state, replay, sourceRoute.value);
      if ground.Err? then Err(ground.error)
      else Settle(source, target, targetRoute.value, ground.value.0, ground.value.1, ground.value.2, replay)
  }

  /** The selection from its grounds: where the replay leads, and what can be kept before it. */
  function Settle(source: Bundle, target: Bundle, route: seq<StateId>, mapped: StateId, retain: seq<StateId>, basis: Basis, replay: Option<StateId>)
    : Result<Selection, MigrationError>
  {
    var stage := ReplayStage(target, route, mapped, replay);
    if stage.Err? then Err(stage.error)
    else if stage.value !in target.flow.states then Err(UnknownDestination)
    else
      var kept := Kept(route, retain, stage.value);
      if kept != [] && source.contracts != target.contracts then Err(ContractsChanged)
      else if exists s :: s in kept && StageContract(source.flow, s) != StageContract(target.flow, s) then Err(StageContractChanged)
      else Ok(Selection(stage.value, kept, basis, source.revision == target.revision && replay.None?))
  }

  /** Under validated rules, an accepted selection is safe in the sense of `SelectionIsSafe`. */
  method SelectMigration(source: Bundle, target: Bundle, activation: string, state: StateId, replay: Option<StateId>)
    returns (r: Result<Selection, MigrationError>)
    ensures r == Select(source, target, activation, state, replay)
    ensures r.Ok? && (forall rule :: rule in target.rules ==> ValidRule(rule, target)) ==>
              SafeSelection(source, target, activation, state, replay, r.value)
  {
    if forall rule :: rule in target.rules ==> ValidRule(rule, target) { SelectionIsSafe(source, target, activation, state, replay); }
    var sourceRoute := RouteStages(source.flow, activation);
    if sourceRoute.Err? { return Err(sourceRoute.error); }
    var targetRoute := RouteStages(target.flow, activation);
    if targetRoute.Err? { return Err(targetRoute.error); }
    if state !in sourceRoute.value { return Err(OutsideRoute); }
    var ground := FindGround(source, target, activation, state, replay, sourceRoute.value);
    if ground.Err? { return Err(ground.error); }
    r := FindStage(source, target, targetRoute.value, ground.value.0, ground.value.1, ground.value.2, replay);
  }

  method FindStage(source: Bundle, target: Bundle, route: seq<StateId>, mapped: StateId, retain: seq<StateId>, basis: Basis, replay: Option<StateId>)
    returns (r: Result<Selection, MigrationError>)
    ensures r == Settle(source, target, route, mapped, retain, basis, replay)
  {
    var stage := mapped;
    if replay.Some? {
      if replay.value !in route { return Err(ReplayOffRoute); }
      if target.flow.KindOf(replay.value) != Some(Agent) { return Err(ReplayNotAgent); }
      if Position(route, replay.value) > Position(route, stage) { return Err(ReplayTooLate); }
      stage := replay.value;
    }
    if stage !in target.flow.states { return Err(UnknownDestination); }
    var kept := Kept(route, retain, stage);
    if kept != [] && source.contracts != target.contracts { return Err(ContractsChanged); }
    if exists s :: s in kept && StageContract(source.flow, s) != StageContract(target.flow, s) { return Err(StageContractChanged); }
    return Ok(Selection(stage, kept, basis, source.revision == target.revision && replay.None?));
  }

  method FindGround(source: Bundle, target: Bundle, activation: string, state: StateId, replay: Option<StateId>, route: seq<StateId>)
    returns (r: Result<(StateId, seq<StateId>, Basis), MigrationError>)
    requires state in route
    ensures r == Ground(source, target, activation, state, replay, route)
  {
    var stage, retain, basis := state, route[..Position(route, state)], Unchanged(Behavior(source));
    if Behavior(source) != Behavior(target) {
      var rules := RulesFor(source, target, activation);
      if |rules| != 1 { return Err(NoSingleRule); }
      var rule := rules[0];
      if state !in rule.states { return Err(NoMapping); }
      if exists s :: s in rule.states && (s !in source.flow.states || s !in route) { return Err(InvalidSourceState); }
      stage, retain, basis := rule.states[state].target, rule.states[state].retain, ByRule(rule);
      if replay.Some? && replay.value !in rule.states[state].replay { return Err(ReplayForbidden); }
    }
    return Ok((stage, retain, basis));
  }

  // ----- What a selection guarantees -----

  lemma SameBehavior(source: Bundle, target: Bundle)
    requires Behavior(source) == Behavior(target)
    ensures source.flow.states.Keys == target.flow.states.Keys
    ensures forall s :: s in source.flow.states ==> WithoutAgent(source.flow.states[s]) == WithoutAgent(target.flow.states[s])
    ensures source.flow.initial == target.flow.initial && source.flow.routes == target.flow.routes
    ensures source.flow.activationLabel == target.flow.activationLabel && source.contracts == target.contracts
  {
    var a, b := Behavior(source).0, Behavior(target).0;
    assert a.states.Keys == source.flow.states.Keys && b.states.Keys == target.flow.states.Keys;
    forall s | s in source.flow.states ensures WithoutAgent(source.flow.states[s]) == WithoutAgent(target.flow.states[s]) {
      assert a.states[s] == b.states[s];
    }
    assert a.initial == source.flow.initial && b.initial == target.flow.initial;
    assert a.routes == source.flow.routes && b.routes == target.flow.routes;
    assert a.activationLabel == source.flow.activationLabel && b.activationLabel == target.flow.activationLabel;
  }

  lemma SameEdges(source: Bundle, target: Bundle, stage: StateId)
    requires Behavior(source) == Behavior(target)
    ensures StageAfter(source.flow, stage) == StageAfter(target.flow, stage)
  {
    SameBehavior(source, target);
    if stage in source.flow.states {
      assert WithoutAgent(source.flow.states[stage]).on == WithoutAgent(target.flow.states[stage]).on;
    }
  }

  lemma {:induction false} SameRouteFrom(source: Bundle, target: Bundle, stage: Option<StateId>, route: seq<StateId>)
    requires Behavior(source) == Behavior(target)
    ensures RouteFrom(source.flow, stage, route) == RouteFrom(target.flow, stage, route)
    decreases source.flow.states.Keys - ToSet(route)
  {
    SameBehavior(source, target);
    if !Closes(stage, route) && stage.value in source.flow.states {
      assert stage.value in source.flow.states.Keys - ToSet(route);
      assert ToSet(route + [stage.value]) == ToSet(route) + {stage.value};
      SameEdges(source, target, stage.value);
      SameRouteFrom(source, target, StageAfter(source.flow, stage.value), route + [stage.value]);
    }
  }

  /** Changing agents only leaves every activation route as it was. */
  lemma UnchangedKeepsRoutes(source: Bundle, target: Bundle, activation: string)
    requires Behavior(source) == Behavior(target)
    ensures Route(source.flow, activation) == Route(target.flow, activation)
  {
    SameBehavior(source, target);
    if Entry(source.flow, activation).Some? {
      SameRouteFrom(source, target, Entry(source.flow, activation), []);
    }
  }

  /** The stage a replay may not pass: the current one, or the one the rule maps it to. */
  function Limit(source: Bundle, s: Selection, state: StateId): StateId
    requires s.basis.ByRule? ==> state in s.basis.rule.states
  {
    if s.basis.ByRule? then s.basis.rule.states[state].target else state
  }

  /** The results on offer: those the rule lists for the state, or without change all before it. */
  function Listed(s: Selection, state: StateId, route: seq<StateId>): seq<StateId>
    requires s.basis.ByRule? ==> state in s.basis.rule.states
  {
    if s.basis.ByRule? then s.basis.rule.states[state].retain else route[..if state in route then Position(route, state) else 0]
  }

  /**
   The selection lands on the activation's route in the target flow, a replay is an agent stage no later than the current
   or mapped one; of the results on offer exactly those of earlier stages are kept, and their contracts are unchanged.
   */
  ghost predicate SafeSelection(source: Bundle, target: Bundle, activation: string, state: StateId, replay: Option<StateId>, s: Selection) {
    var route := Route(target.flow, activation);
    && route.Ok? && s.stage in route.value && s.stage in target.flow.states
    && (s.basis.ByRule? ==> s.basis.rule in target.rules && IsFor(s.basis.rule, source, target, activation) && state in s.basis.rule.states)
    && (s.basis.Unchanged? <==> Behavior(source) == Behavior(target))
    && (forall k :: k in s.retain <==> k in Listed(s, state, route.value) && 0 <= Position(route.value, k) < Position(route.value, s.stage))
    && (s.noop <==> source.revision == target.revision && replay.None?)
    && (replay.Some? ==> s.stage == replay.value && target.flow.KindOf(s.stage) == Some(Agent)
                         && Position(route.value, s.stage) <= Position(route.value, Limit(source, s, state)))
    && (replay.None? ==> s.stage == Limit(source, s, state))
    && (forall k :: k in s.retain ==> StageContract(source.flow, k) == StageContract(target.flow, k) && source.contracts == target.contracts)
  }

  /** What a selection makes of its grounds. */
  ghost predicate SettledFrom(source: Bundle, target: Bundle, route: seq<StateId>, mapped: StateId, retain: seq<StateId>, basis: Basis,
                              replay: Option<StateId>, s: Selection)
  {
    && s.basis == basis && s.stage in target.flow.states && (s.noop <==> source.revision == target.revision && replay.None?)
    && (replay.None? ==> s.stage == mapped)
    && (replay.Some? ==> s.stage == replay.value && replay.value in route && target.flow.KindOf(replay.value) == Some(Agent)
                         && Position(route, replay.value) <= Position(route, mapped))
    && (forall k :: k in s.retain <==> k in retain && 0 <= Position(route, k) < Position(route, s.stage))
    && (forall k :: k in s.retain ==> StageContract(source.flow, k) == StageContract(target.flow, k) && source.contracts == target.contracts)
  }

  lemma SettledMeaning(source: Bundle, target: Bundle, route: seq<StateId>, mapped: StateId, retain: seq<StateId>, basis: Basis, replay: Option<StateId>)
    ensures var r := Settle(source, target, route, mapped, retain, basis, replay);
            r.Ok? ==> SettledFrom(source, target, route, mapped, retain, basis, replay, r.value)
  {
  }

  /** Where the grounds point: on the target route, and for a rule to the stage it maps to. */
  ghost predicate Grounded(source: Bundle, target: Bundle, activation: string, state: StateId, route: seq<StateId>,
                           mapped: StateId, retain: seq<StateId>, basis: Basis)
  {
    && mapped in route && (basis.Unchanged? <==> Behavior(source) == Behavior(target))
    && (basis.Unchanged? ==> mapped == state && retain == route[..Position(route, state)])
    && (basis.ByRule? ==>
          && basis.rule in target.rules && IsFor(basis.rule, source, target, activation) && state in basis.rule.states
          && mapped == basis.rule.states[state].target && retain == basis.rule.states[state].retain)
  }

  lemma GroundMeaning(source: Bundle, target: Bundle, activation: string, state: StateId, replay: Option<StateId>, route: seq<StateId>)
    requires state in route && Route(source.flow, activation) == Ok(route)
    requires forall r :: r in target.rules ==> ValidRule(r, target)
    ensures var ground := Ground(source, target, activation, state, replay, route);
            ground.Ok? ==>
              && Route(target.flow, activation).Ok?
              && Grounded(source, target, activation, state, Route(target.flow, activation).value, ground.value.0, ground.value.1, ground.value.2)
  {
    if Behavior(source) == Behavior(target) {
      UnchangedKeepsRoutes(source, target, activation);
    } else if |RulesFor(source, target, activation)| == 1 {
      var rule := RulesFor(source, target, activation)[0];
      assert rule in RulesFor(source, target, activation);
      assert ValidRule(rule, target);
      if state in rule.states {
        assert ValidMapping(rule.states[state], target.flow, Route(target.flow, rule.activation));
        assert rule.states[state].target in [rule.states[state].target] + rule.states[state].replay;
      }
    }
  }

  lemma SafeFromGrounds(source: Bundle, target: Bundle, activation: string, state: StateId, replay: Option<StateId>, route: seq<StateId>,
                        mapped: StateId, retain: seq<StateId>, basis: Basis, s: Selection)
    requires Route(target.flow, activation) == Ok(route)
    requires Grounded(source, target, activation, state, route, mapped, retain, basis)
    requires SettledFrom(source, target, route, mapped, retain, basis, replay, s)
    ensures SafeSelection(source, target, activation, state, replay, s)
  {
  }

  /** With validated rules every selection is safe. */
  lemma SelectionIsSafe(source: Bundle, target: Bundle, activation: string, state: StateId, replay: Option<StateId>)
    requires forall r :: r in target.rules ==> ValidRule(r, target)
    ensures var selected := Select(source, target, activation, state, replay);
            selected.Ok? ==> SafeSelection(source, target, activation, state, replay, selected.value)
  {
    var selected := Select(source, target, activation, state, replay);
    if selected.Ok? {
      var sourceRoute, targetRoute := Route(source.flow, activation).value, Route(target.flow, activation).value;
      var (mapped, retain, basis) := Ground(source, target, activation, state, replay, sourceRoute).value;
      GroundMeaning(source, target, activation, state, replay, sourceRoute);
      SettledMeaning(source, target, targetRoute, mapped, retain, basis, replay);
      SafeFromGrounds(source, target, activation, state, replay, targetRoute, mapped, retain, basis, selected.value);
    }
  }

  // ----- When a selection succeeds -----

  /** The one rule of the target for this source, flow and activation. */
  ghost predicate OnlyRule(source: Bundle, target: Bundle, activation: string, rule: Rule) {
    exists i :: 0 <= i < |target.rules| && target.rules[i] == rule && IsFor(rule, source, target, activation)
                && forall j :: 0 <= j < |target.rules| && IsFor(target.rules[j], source, target, activation) ==> j == i
  }

  lemma OnlyRuleIsFound(source: Bundle, target: Bundle, activation: string, rule: Rule)
    ensures RulesFor(source, target, activation) == [rule] <==> OnlyRule(source, target, activation, rule)
  {
    FilterSingle((r: Rule) => IsFor(r, source, target, activation), target.rules, rule);
  }

  /** What is on offer from `state`: itself and all before it when nothing changed, else what the one applicable rule says. */
  ghost predicate Offered(source: Bundle, target: Bundle, activation: string, state: StateId, replay: Option<StateId>, mapped: StateId, retain: seq<StateId>) {
    var route := Route(source.flow, activation);
    && route.Ok? && state in route.value
    && if Behavior(source) == Behavior(target) then mapped == state && retain == route.value[..Position(route.value, state)]
       else exists rule :: OnlyRule(source, target, activation, rule) && OfferedBy(rule, source, route.value, state, replay, mapped, retain)
  }

  ghost predicate OfferedBy(rule: Rule, source: Bundle, route: seq<StateId>, state: StateId, replay: Option<StateId>, mapped: StateId, retain: seq<StateId>) {
    && state in rule.states && mapped == rule.states[state].target && retain == rule.states[state].retain
    && (forall s :: s in rule.states ==> s in source.flow.states && s in route)
    && (replay.Some? ==> replay.value in rule.states[state].replay)
  }

  /** The destination, a replay or the mapped stage, is sound, and so is every result kept before it. */
  ghost predicate Acceptable(source: Bundle, target: Bundle, activation: string, replay: Option<StateId>, mapped: StateId, retain: seq<StateId>) {
    var route := Route(target.flow, activation);
    var stage := if replay.Some? then replay.value else mapped;
    && route.Ok? && stage in target.flow.states
    && (replay.Some? ==> stage in route.value && target.flow.KindOf(stage) == Some(Agent) && Position(route.value, stage) <= Position(route.value, mapped))
    && (forall k :: k in retain && 0 <= Position(route.value, k) < Position(route.value, stage) ==>
          source.contracts == target.contracts && StageContract(source.flow, k) == StageContract(target.flow, k))
  }

  lemma GroundIsOffered(source: Bundle, target: Bundle, activation: string, state: StateId, replay: Option<StateId>, mapped: StateId, retain: seq<StateId>)
    requires Route(source.flow, activation).Ok? && state in Route(source.flow, activation).value
    ensures var ground := Ground(source, target, activation, state, replay, Route(source.flow, activation).value);
            (ground.Ok? && ground.value.0 == mapped && ground.value.1 == retain) <==> Offered(source, target, activation, state, replay, mapped, retain)
  {
    if Behavior(source) != Behavior(target) {
      var rules := RulesFor(source, target, activation);
      forall rule: Rule ensures rules == [rule] <==> OnlyRule(source, target, activation, rule) {
        OnlyRuleIsFound(source, target, activation, rule);
      }
      if |rules| == 1 {
        assert rules == [rules[0]];
        assert forall rule: Rule :: rules == [rule] ==> rule == rules[0];
      }
    }
  }

  lemma SettlesIffKeptAreSound(source: Bundle, target: Bundle, route: seq<StateId>, mapped: StateId, retain: seq<StateId>, basis: Basis,
                               replay: Option<StateId>, kept: seq<StateId>)
    requires ReplayStage(target, route, mapped, replay).Ok? && kept == Kept(route, retain, ReplayStage(target, route, mapped, replay).value)
    ensures Settle(source, target, route, mapped, retain, basis, replay).Ok? <==>
              && ReplayStage(target, route, mapped, replay).value in target.flow.states
              && forall k :: k in kept ==> source.contracts == target.contracts && StageContract(source.flow, k) == StageContract(target.flow, k)
  {
    if kept != [] { assert kept[0] in kept; }
  }

  lemma SettlesIffAcceptable(source: Bundle, target: Bundle, activation: string, route: seq<StateId>, mapped: StateId, retain: seq<StateId>,
                             basis: Basis, replay: Option<StateId>)
    requires Route(target.flow, activation) == Ok(route)
    ensures Settle(source, target, route, mapped, retain, basis, replay).Ok? <==> Acceptable(source, target, activation, replay, mapped, retain)
  {
    var stage := ReplayStage(target, route, mapped, replay);
    if stage.Ok? { SettlesIffKeptAreSound(source, target, route, mapped, retain, basis, replay, Kept(route, retain, stage.value)); }
  }

  /** A selection succeeds exactly when something is on offer from the state and its destination is acceptable. */
  lemma SelectionSucceedsIff(source: Bundle, target: Bundle, activation: string, state: StateId, replay: Option<StateId>)
    ensures Select(source, target, activation, state, replay).Ok? <==>
              exists mapped, retain :: Offered(source, target, activation, state, replay, mapped, retain)
                                       && Acceptable(source, target, activation, replay, mapped, retain)
  {
    var sourceRoute, targetRoute := Route(source.flow, activation), Route(target.flow, activation);
    if sourceRoute.Ok? && targetRoute.Ok? && state in sourceRoute.value {
      var ground := Ground(source, target, activation, state, replay, sourceRoute.value);
      if ground.Ok? {
        GroundIsOffered(source, target, activation, state, replay, ground.value.0, ground.value.1);
        SettlesIffAcceptable(source, target, activation, targetRoute.value, ground.value.0, ground.value.1, ground.value.2, replay);
      }
      forall mapped, retain | Offered(source, target, activation, state, replay, mapped, retain)
        ensures ground.Ok? && ground.value.0 == mapped && ground.value.1 == retain
      {
        GroundIsOffered(source, target, activation, state, replay, mapped, retain);
      }
    }
  }

  /** Without behavioural change and without a replay, every stage of the route keeps its place and all results before it. */
  lemma UnchangedKeepsEverything(source: Bundle, target: Bundle, activation: string, state: StateId)
    requires Behavior(source) == Behavior(target)
    requires Route(source.flow, activation).Ok? && state in Route(source.flow, activation).value
    ensures var route := Route(source.flow, activation).value;
            Select(source, target, activation, state, None)
            == Ok(Selection(state, route[..Position(route, state)], Unchanged(Behavior(source)), source.revision == target.revision))
  {
    hide Behavior, Position;
    var route := Route(source.flow, activation).value;
    UnchangedKeepsRoutes(source, target, activation);
    SameBehavior(source, target);
    assert Entry(source.flow, activation).Some?;
    RouteIsTheSuccessRoute(source.flow, activation, route);
    var at := Position(route, state);
    forall s | s in route[..at] ensures 0 <= Position(route, s) < at && StageContract(source.flow, s) == StageContract(target.flow, s) {
      var i :| 0 <= i < at && route[i] == s;
      DistinctPosition(route, i);
    }
    KeepsAll((s: StateId) => 0 <= Position(route, s) < Position(route, state), route[..at]);
    assert Kept(route, route[..at], state) == route[..at];
  }

  lemma DistinctPosition(route: seq<StateId>, i: nat)
    requires Distinct(route) && i < |route|
    ensures Position(route, route[i]) == i
  {
    var j := Position(route, route[i]);
    assert j >= 0 && route[j] == route[i];
  }

  lemma {:induction false} KeepsAll(keep: StateId -> bool, xs: seq<StateId>)
    requires forall x :: x in xs ==> keep(x)
    ensures Filter(keep, xs) == xs
  {
    if xs != [] {
      KeepsAll(keep, xs[1..]);
    }
  }
}
