/** The durable record of one ticket: its control state and the attempt series the control state carries. */
module Execution {
  import opened Basics

  /** Attempts of one series share the agent, the flow state and the input they work on. */
  datatype Stage = Stage(agentId: string, stateId: string, inputRevision: string)

  datatype Status = Started | Failed | Succeeded | Cancelled

  type AttemptId = nat

  datatype Attempt = Attempt(id: AttemptId, status: Status)

  datatype Series = Series(
    id: nat,
    stage: Stage,
    bound: bool,                 // carries its runtime digest and execution snapshot
    maxAttempts: nat,
    consumed: nat,
    current: Option<Attempt>)

  datatype Control = Control(
    flowInstanceId: string,
    sequence: int,
    stateId: string,
    resumeStateId: Option<string>,
    series: Option<Series>)

  datatype Owner = Owner(controllerId: string, publicationKey: string)

  datatype Disposition = Ready | Foreign | Ambiguous | Inactive

  /** `LocalExecution` */
  datatype LocalExecution = LocalExecution(
    migrationId: Option<string>,
    controllerId: string,
    observedAt: string,
    owner: Option<Owner>,
    disposition: Disposition,
    reason: Option<string>,
    publicationKeys: seq<string>,
    control: Option<Control>)

  datatype Stored = Stored(revision: int, value: LocalExecution)
}
