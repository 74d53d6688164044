/** Flow definitions as the configuration repository declares them (src/config/types.ts:27-52). */
module Flow {
  import opened Basics

  type StateId = string

  /** The reserved target that sends a paused ticket back to the state it left. */
  const RESUME: StateId := "$resume"

  datatype EventType =
    | AgentSucceeded | AgentNeedsHuman | CiFailed | AttemptsExhausted
    | ReviewApproved | ReviewChangesRequested
    | HumanApproved | HumanChangesRequested | HumanQuestion | HumanUnclear | HumanCancelled
    | HumanAnswerAccepted | HumanAnswerCancelled | HumanAnswerUnclear
    | AuthorizedComment
    | ChangeRequestUpdated | ChangeRequestMerged | ChangeRequestClosed

  datatype Guard = AuthorizedActor | ActivationPresent | TicketOpen | HeadMatches | ReceiptValid

  datatype Action = RecordReceipt | RememberResumeState | ClearResumeState | ResetRetryBudget | RemoveActivationLabel

  datatype StateKind = Agent | HumanGate | ProviderWait | Paused | Final

  datatype ResultContract =
    | Assessment | Plan | Diagnostic | Verification | DocumentationResult | Development | ReviewResult | GateResult | NoResult

  datatype Transition = Transition(target: StateId, resumeTarget: Option<StateId>, guards: seq<Guard>, actions: seq<Action>)

  datatype FlowState = FlowState(kind: StateKind, agent: Option<string>, contract: Option<ResultContract>, on: map<EventType, Transition>)

  /** `order` lists the declared states as `Object.entries` visits them. */
  datatype FlowDefinition = FlowDefinition(
    id: string,
    activationLabel: string,
    initial: StateId,
    routes: map<string, StateId>,
    requiredChecks: seq<string>,
    order: seq<StateId>,
    states: map<StateId, FlowState>)
  {
    /** `states[state]?.on?.[event]?.target` */
    function Target(state: StateId, event: EventType): Option<StateId> {
      if state in states && event in states[state].on then Some(states[state].on[event].target) else None
    }

    function KindOf(state: StateId): Option<StateKind> {
      if state in states then Some(states[state].kind) else None
    }

    function ContractOf(state: StateId): Option<ResultContract> {
      if state in states then states[state].contract else None
    }
  }
}
