/** The values that travel between the services: enums, event payloads and outbox rows. */
module Contracts {

  type EventId = nat

  datatype RiskLevel = Low | Medium | High | Critical

  datatype RiskDecision = Approve | Review | Block

  datatype CaseStatus = Open | Assigned | Investigating | Escalated | ConfirmedFraud | FalsePositive | Closed

  datatype Topic = TransactionsValidated | RiskDecisions | Alerts | ProfileUpdated

  /** The part of a risk evaluation that is stored, published and copied into a case. */
  datatype Verdict = Verdict(score: int, level: RiskLevel, decision: RiskDecision)

  /** An accepted raw transaction event; `valid` is the validator's answer for it. */
  datatype RawEvent = RawEvent(id: EventId, transactionId: string, accountId: string, valid: bool)

  /** A published risk decision. */
  datatype DecisionEvent = DecisionEvent(id: EventId, transactionId: string, accountId: string, verdict: Verdict)

  datatype Payload =
    | Validated(id: EventId, original: RawEvent)
    | Decision(event: DecisionEvent)
    | Alert(id: EventId, transactionId: string, accountId: string, decision: RiskDecision, score: int)
    | ProfileChanged(id: EventId, accountId: string)

  function TopicOf(p: Payload): Topic {
    match p
    case Validated(_, _) => TransactionsValidated
    case Decision(_) => RiskDecisions
    case Alert(_, _, _, _, _) => Alerts
    case ProfileChanged(_, _) => ProfileUpdated
  }

  /** One row of `outbox_messages`; its identity is its position in commit order. */
  datatype OutboxRow = OutboxRow(payload: Payload, createdAt: int)

  predicate NeedsAnalyst(decision: RiskDecision) {
    decision == Review || decision == Block
  }

  /** An analyst sees everything that is not approved. */
  lemma EverythingButApprove(decision: RiskDecision)
    ensures NeedsAnalyst(decision) <==> decision != Approve
  {
  }

  /** Each kind of event has a topic of its own. */
  lemma TopicMeaning(p: Payload)
    ensures TopicOf(p) == TransactionsValidated <==> p.Validated?
    ensures TopicOf(p) == RiskDecisions <==> p.Decision?
    ensures TopicOf(p) == Alerts <==> p.Alert?
    ensures TopicOf(p) == ProfileUpdated <==> p.ProfileChanged?
  {
  }

  /** How a write ends for its caller: it may take effect and still throw. */
  datatype Ack = Done | DoneButThrown | NotDone
}
