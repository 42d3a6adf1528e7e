/** Value types shared by the services: facts, decisions, statuses and identities. */
module Contracts {

  datatype Option<+T> = None | Some(value: T)

  datatype Result<+T, +E> = Ok(value: T) | Err(error: E)

  /** Database identities; every UUID of the platform is one of these. */
  type Id = nat

  datatype Json =
    | Null
    | Bool(flag: bool)
    | Num(number: int)
    | Str(text: string)
    | Arr(items: seq<Json>)
    | Obj(fields: map<string, Json>)

  // ---------------------------------------------------------------- facts

  datatype FactKind = Authoritative | CustomerClaim

  datatype Observation = Observation(key: string, kind: FactKind, value: Json)

  // -------------------------------------------------------------- actions

  datatype Permission = Allow | Deny | RequireApproval

  datatype ActionStatus =
    | Allowed | Denied | PendingApproval | Approved | Rejected | Superseded
    | Executing | Succeeded | Failed | Conflict | Unknown | Reconciling

  /** The statuses ProcessStateService loads as open actions. */
  predicate IsOpen(s: ActionStatus) {
    s in {Allowed, PendingApproval, Approved, Executing, Unknown, Reconciling}
  }

  /** A terminal attempt is never rewritten by any executor. */
  predicate IsFinal(s: ActionStatus) {
    s in {Succeeded, Failed, Conflict}
  }

  /** Statuses that hold a place in the outbound message budget. */
  predicate IsReserved(s: ActionStatus) {
    s in {Allowed, PendingApproval, Approved, Executing, Succeeded, Unknown, Reconciling}
  }

  /** Provider-visible content. Its canonical hash is injective, so the content
      itself stands for the hash. */
  datatype Payload = Payload(actionType: string, parameters: Json)

  /** The execution idempotency key, an injective digest of one action revision. */
  datatype Key = Key(process: Id, request: Id, revision: nat, payload: Payload)

  // ------------------------------------------------------------ decisions

  datatype Interaction = ApprovalInteraction | ReviewInteraction | OperatorInteraction

  datatype Wake =
    | EventWake(eventType: string)
    | TimerWake(at: int)
    | HumanWake(interaction: Interaction)

  datatype DecisionStatus = DecideActive | DecideWaiting | DecideCompleted | DecideEscalated

  datatype Proposal = Proposal(
    requestId: Id, logicalKey: string, actionType: string, parameters: Json, rationale: string)

  /** The wake sources a memory summary says it was drawn from. */
  datatype Cited = Cited(events: seq<Id>, reviews: seq<Id>, attempts: seq<Key>, timers: seq<string>)

  datatype Memory = Memory(summary: Option<string>, cited: Cited, commitments: seq<string>)

  datatype Decision = Decision(
    id: Id,
    eventIds: seq<Id>,
    reviewIds: seq<Id>,
    attemptIds: seq<Key>,
    timerIds: seq<string>,
    status: DecisionStatus,
    actions: seq<Proposal>,
    wakes: seq<Wake>,
    memory: Memory)

  function PayloadOf(a: Proposal): Payload {
    Payload(a.actionType, a.parameters)
  }

  // ------------------------------------------------------------ processes

  datatype ProcessStatus =
    | Active | Waiting | Review | Paused | Completed | Cancelled | ProcessFailed

  predicate IsTerminal(s: ProcessStatus) {
    s in {Completed, Cancelled, ProcessFailed}
  }
}
