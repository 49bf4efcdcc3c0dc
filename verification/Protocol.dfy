/** The vocabulary shared by the session broker and the master: identities,
    session states and the requests a broker sends to the master. */
module Protocol {

  datatype Option<+T> = None | Some(value: T)

  /** Registry names, escalation ids and tool-use ids. Only equality matters. */
  type SessionId = nat
  type EscalationId = nat
  type ToolUseId = nat

  datatype SessionState =
    | Spawning
    | Grounding
    | AwaitingApproval
    | Driving
    | Escalated
    | Completed
    | Error
    | Stopped

  /** Everything a session broker sends to the master and waits an answer for. */
  datatype Request =
    | Escalation(id: EscalationId)
    | EscalationRetract(id: EscalationId)
    | DecisionDelivered(id: EscalationId)
    | DecisionUndelivered(id: EscalationId, stillLive: bool)
    | FatalError
    | SessionEnded
    | Completion
    | BudgetUpdate(count: nat)
    | PromptProposal
    | PromptUndelivered
    | PaneEscalation(id: EscalationId)
    | PaneRetract(id: EscalationId)
}
