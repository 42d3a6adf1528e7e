/** The rows of one tenant and the queries that several services share. */
module Store {
  import opened Contracts
  import opened Knowledge
  import Communications
  import Outbox

  type Deployment = string

  const UNASSIGNED: Deployment := "unassigned"
  const OPERATOR_MANUAL_WAKE := "operator.manual_wake"
  const OPERATOR_SOURCE := "operator"

  // ------------------------------------------------------------------ rows

  /** The published definition that a process stays pinned to. */
  datatype Definition = Definition(
    requirements: map<string, Json>,
    mayComplete: bool,
    permissions: map<string, Permission>,
    comms: Communications.Policy)

  datatype Revision = Revision(
    turn: Id, decision: Id, version: nat, status: ProcessStatus,
    facts: Projection, summary: Option<string>, commitments: seq<string>, wakes: seq<Wake>)

  datatype Process = Process(
    definition: Definition, deployment: Deployment, createdAt: int, recordOnly: bool,
    status: ProcessStatus, wakes: seq<Wake>, facts: Projection,
    summary: Option<string>, commitments: seq<string>,
    stateVersion: nat, history: seq<Revision>)
  {
    /** Paused and terminal processes take no actions, reviews or executions. */
    predicate IsClosed() { status.Paused? || IsTerminal(status) }
  }

  datatype ApprovalStatus = Awaiting | Granted | Refused | Replaced

  datatype ThreadStatus = ThreadOpen | ThreadApproved | ThreadRejected | RevisionRequested

  datatype Approval =
    | NotNeeded
    | Approval(status: ApprovalStatus, thread: ThreadStatus, expiresAt: Option<int>)

  /** A request with its only revision, policy record, approval and review thread, which are
      always inserted together. The thread goes by the identity of its request. */
  datatype Action = Action(
    process: Id, turn: Id, logicalKey: string, payload: Payload, outcome: Permission,
    status: ActionStatus, supersedes: Option<Id>, createdAt: int, approval: Approval)

  /** What a provider did for one idempotency key. */
  datatype Effect =
    | Accepted(reference: string, facts: seq<Observation>)
    | Conflicted(message: string, facts: seq<Observation>)

  datatype Attempt = Attempt(adapter: Id, status: ActionStatus, effect: Option<Effect>) {
    function Facts(): seq<Observation> {
      if effect.Some? then effect.value.facts else []
    }
  }

  datatype ApprovalDecision = ApprovalDecision(
    request: Id, granted: bool, payload: Payload, actor: Id, reason: string)

  datatype ReviewKind = Approve | Reject | RequestRevision | Comment

  datatype ReviewMessage = ReviewMessage(
    process: Id, thread: Id, kind: ReviewKind, actor: Id, content: string, revision: nat)

  datatype Resolution = Resolution(
    id: Id, actor: Id, succeeded: bool, evidence: string, reference: Option<string>)

  datatype ControlKind = Retry | WakeNow | Takeover | Resume

  datatype Control = Control(
    process: Id, actor: Id, kind: ControlKind, reason: string, intervention: Option<Id>)

  datatype Reference = Reference(provider: string, resourceType: string, externalId: string)

  datatype Event = Event(
    id: Id, process: Option<Id>, eventType: string, source: string, sourceId: string,
    receivedAt: int, references: seq<Reference>, facts: seq<Observation>)

  datatype Correlation = Matched | Parked | Declined

  datatype CorrelationReason =
    | SingleMatch | CreatedFromTrigger | TerminalRecordOnly | OperatorWake | OperatorResolution
    | NoMatch | Ambiguous | ExplicitNotFound

  datatype InboxRow = InboxRow(
    event: Event, process: Option<Id>, status: Correlation, reason: CorrelationReason)

  datatype QuarantineCommand = QuarantineCommand(
    event: Id, process: Id, actor: Id, reason: string, references: set<Reference>, delivered: bool)

  /** One tenant's database. `slots`, `sources` and `interventions` are keyed by unique
      constraints; `order` and `arrivals` list rows by insertion. */
  datatype Db = Db(
    clock: int,
    active: bool,
    deployment: Deployment,
    processes: map<Id, Process>,
    actions: map<Id, Action>,
    order: seq<Id>,
    slots: map<(Id, Id, string), Id>,
    attempts: map<Key, Attempt>,
    approvals: map<Id, ApprovalDecision>,
    reviews: map<Id, ReviewMessage>,
    resolutions: map<Key, Resolution>,
    interventions: map<(Id, Id), bool>,
    controls: map<Id, Control>,
    inbox: map<Id, InboxRow>,
    arrivals: seq<Id>,
    sources: map<(string, string), Id>,
    owners: map<Reference, Id>,
    commands: map<Id, QuarantineCommand>,
    outbox: map<Outbox.DedupKey, Outbox.Message>)

  // --------------------------------------------------------------- queries

  function KeyOf(id: Id, a: Action): Key {
    Key(a.process, id, 1, a.payload)
  }

  function OpenActions(actions: map<Id, Action>, p: Id): map<Id, ActionStatus> {
    map id | id in actions && actions[id].process == p && IsOpen(actions[id].status) :: actions[id].status
  }

  /** A request that holds a place in the message budget of its process. */
  predicate Reserves(actions: map<Id, Action>, id: Id, p: Id, types: set<string>) {
    id in actions && actions[id].process == p && actions[id].payload.actionType in types &&
    IsReserved(actions[id].status)
  }

  /** The creation times of the reserved outbound requests, without one of them. */
  function SendTimes(order: seq<Id>, actions: map<Id, Action>, p: Id, types: set<string>, except: Option<Id>)
    : seq<int>
  {
    if order == [] then []
    else
      var n := |order| - 1;
      var rest := SendTimes(order[..n], actions, p, types, except);
      if Reserves(actions, order[n], p, types) && except != Some(order[n])
      then rest + [actions[order[n]].createdAt] else rest
  }

  predicate Concerns(inbox: map<Id, InboxRow>, e: Id, p: Id, types: set<string>) {
    e in inbox && inbox[e].status.Matched? && inbox[e].process == Some(p) && inbox[e].event.eventType in types
  }

  predicate Later(inbox: map<Id, InboxRow>, e: Id, f: Id)
    requires e in inbox && f in inbox
  {
    inbox[e].event.receivedAt > inbox[f].event.receivedAt ||
    (inbox[e].event.receivedAt == inbox[f].event.receivedAt && e > f)
  }

  /** The matched event of some types that was received last. */
  function LatestEvent(arrivals: seq<Id>, inbox: map<Id, InboxRow>, p: Id, types: set<string>): (r: Option<Id>)
    ensures r.Some? ==> Concerns(inbox, r.value, p, types)
    ensures r.Some? ==> exists i :: 0 <= i < |arrivals| && arrivals[i] == r.value
    ensures forall i :: 0 <= i < |arrivals| && Concerns(inbox, arrivals[i], p, types) ==>
              r.Some? && !Later(inbox, arrivals[i], r.value)
  {
    if arrivals == [] then None
    else
      var n := |arrivals| - 1;
      var rest := LatestEvent(arrivals[..n], inbox, p, types);
      if Concerns(inbox, arrivals[n], p, types) && (rest.None? || Later(inbox, arrivals[n], rest.value))
      then Some(arrivals[n]) else rest
  }

  function LatestTime(db: Db, p: Id, types: set<string>): Option<int> {
    var e := LatestEvent(db.arrivals, db.inbox, p, types);
    if e.Some? then Some(db.inbox[e.value].event.receivedAt) else None
  }

  /** An automated response counts until a human reply is received after it. */
  function ActiveAutomatedResponse(db: Db, p: Id, policy: Communications.Policy): Option<int> {
    var e := LatestEvent(db.arrivals, db.inbox, p, policy.replyTypes + policy.automatedTypes);
    if e.Some? && db.inbox[e.value].event.eventType in policy.automatedTypes
    then Some(db.inbox[e.value].event.receivedAt) else None
  }

  /** communications/safety.py inspect: the evidence for the next send, or for a recheck of
      one that already holds a reservation. */
  function Inspect(db: Db, p: Id, current: Option<Id>): Communications.Facts
    requires p in db.processes
  {
    var policy := db.processes[p].definition.comms;
    Communications.Facts(
      db.processes[p].createdAt,
      SendTimes(db.order, db.actions, p, policy.outboundTypes, None),
      Some(SendTimes(db.order, db.actions, p, policy.outboundTypes, current)),
      LatestTime(db, p, policy.replyTypes),
      ActiveAutomatedResponse(db, p, policy),
      LatestTime(db, p, policy.optOutTypes),
      current.None?)
  }

  predicate Expired(db: Db, p: Id)
    requires p in db.processes
  {
    Communications.LifetimeBlock(db.processes[p].createdAt, db.processes[p].definition.comms, db.clock).Some?
  }

  /** Insert a delivery unless its deduplication key is taken. */
  function Enqueued(db: Db, key: Outbox.DedupKey, p: Id, cause: Option<Id>): map<Outbox.DedupKey, Outbox.Message> {
    if key in db.outbox then db.outbox else db.outbox[key := Outbox.Fresh(p, cause, db.clock)]
  }

  /** Insert an inbox row under its event and source identities. */
  function Arrived(db: Db, row: InboxRow): (r: Db)
    ensures r.outbox == db.outbox && r.clock == db.clock
  {
    db.(inbox := db.inbox[row.event.id := row],
        arrivals := db.arrivals + [row.event.id],
        sources := db.sources[(row.event.source, row.event.sourceId) := row.event.id])
  }

  predicate ReasonOk(reason: string) { 1 <= |reason| <= 10_000 }

  function NewTenant(clock: int, deployment: Deployment): Db {
    Db(clock, true, deployment, map[], map[], [], map[], map[], map[], map[], map[], map[], map[], map[], [],
       map[], map[], map[], map[])
  }

  // ---------------------------------------------------------------- meaning

  /** A fresh delivery stands under the key, unless one stood there before. */
  ghost predicate Told(db: Db, outbox: map<Outbox.DedupKey, Outbox.Message>, key: Outbox.DedupKey, p: Id,
                       cause: Option<Id>)
  {
    && key in outbox && outbox.Keys == db.outbox.Keys + {key}
    && (forall k :: k in db.outbox ==> outbox[k] == db.outbox[k])
    && (key !in db.outbox ==>
          outbox[key] == Outbox.Message(p, cause, Outbox.Pending, 0, db.clock, None, None, None))
  }

  lemma EnqueuedTells(db: Db, key: Outbox.DedupKey, p: Id, cause: Option<Id>)
    ensures Told(db, Enqueued(db, key, p, cause), key, p, cause)
  {}

  /** The event is matched with the process and of one of the types. */
  ghost predicate IsInbound(db: Db, e: Id, p: Id, types: set<string>) {
    e in db.inbox && db.inbox[e].status == Matched && db.inbox[e].process == Some(p) &&
    db.inbox[e].event.eventType in types
  }

  /** Nothing of the types was received after it, nor at the same time under a higher identity. */
  ghost predicate IsLatest(db: Db, e: Id, p: Id, types: set<string>) {
    && IsInbound(db, e, p, types) && e in db.arrivals
    && forall f :: f in db.arrivals && IsInbound(db, f, p, types) ==>
         db.inbox[f].event.receivedAt < db.inbox[e].event.receivedAt ||
         (db.inbox[f].event.receivedAt == db.inbox[e].event.receivedAt && f <= e)
  }

  /** The time is that of the latest matched event of the types, and there is none without one. */
  ghost predicate IsTimeOfLatest(db: Db, p: Id, types: set<string>, time: Option<int>) {
    match time
    case None => forall e :: e in db.arrivals ==> !IsInbound(db, e, p, types)
    case Some(t) => exists e :: IsLatest(db, e, p, types) && t == db.inbox[e].event.receivedAt
  }

  /** The time is that of the latest inbound contact if that is an automated response. */
  ghost predicate IsTimeOfAutomated(db: Db, p: Id, policy: Communications.Policy, time: Option<int>) {
    var types := policy.replyTypes + policy.automatedTypes;
    match time
    case None =>
      || (forall e :: e in db.arrivals ==> !IsInbound(db, e, p, types))
      || exists e :: IsLatest(db, e, p, types) && db.inbox[e].event.eventType !in policy.automatedTypes
    case Some(t) =>
      exists e :: IsLatest(db, e, p, types) && db.inbox[e].event.eventType in policy.automatedTypes &&
                  t == db.inbox[e].event.receivedAt
  }

  /** The contact evidence of a process, read off its rows: opt-outs and human replies count by
      their latest, an automated response only if no human reply was received after it, and only
      a recheck asks for no further place. */
  lemma EvidenceExactly(db: Db, p: Id, current: Option<Id>)
    requires p in db.processes
    ensures var policy, f := db.processes[p].definition.comms, Inspect(db, p, current);
            && f.createdAt == db.processes[p].createdAt && (f.reserveNext <==> current.None?)
            && f.outbound == SendTimes(db.order, db.actions, p, policy.outboundTypes, None)
            && f.prior == Some(SendTimes(db.order, db.actions, p, policy.outboundTypes, current))
            && IsTimeOfLatest(db, p, policy.optOutTypes, f.optedOutAt)
            && IsTimeOfLatest(db, p, policy.replyTypes, f.lastReply)
            && IsTimeOfAutomated(db, p, policy, f.automatedAt)
  {
    var policy := db.processes[p].definition.comms;
    LatestIsLatest(db, p, policy.optOutTypes);
    LatestIsLatest(db, p, policy.replyTypes);
    LatestIsLatest(db, p, policy.replyTypes + policy.automatedTypes);
  }

  lemma LatestIsLatest(db: Db, p: Id, types: set<string>)
    ensures var e := LatestEvent(db.arrivals, db.inbox, p, types);
            && (e.Some? ==> IsLatest(db, e.value, p, types))
            && (e.None? <==> forall f :: f in db.arrivals ==> !IsInbound(db, f, p, types))
  {
    var e := LatestEvent(db.arrivals, db.inbox, p, types);
    if e.Some? {
      var i :| 0 <= i < |db.arrivals| && db.arrivals[i] == e.value;
    }
    forall f | f in db.arrivals && IsInbound(db, f, p, types) ensures e.Some? && !Later(db.inbox, f, e.value) {
      var i :| 0 <= i < |db.arrivals| && db.arrivals[i] == f;
      assert Concerns(db.inbox, db.arrivals[i], p, types);
    }
  }

  /** The messages of the evidence, in the order of their requests: those of the process, of an
      outbound type and of a status that keeps its place, except the one that is rechecked. */
  lemma MessagesExactly(order: seq<Id>, actions: map<Id, Action>, p: Id, types: set<string>, except: Option<Id>, id: Id)
    ensures SendTimes([], actions, p, types, except) == []
    ensures SendTimes(order + [id], actions, p, types, except) ==
            SendTimes(order, actions, p, types, except) +
            (if except != Some(id) && id in actions && actions[id].process == p &&
                actions[id].payload.actionType in types &&
                actions[id].status !in {Denied, Rejected, Superseded, Failed, ActionStatus.Conflict}
             then [actions[id].createdAt] else [])
  {
    var longer := order + [id];
    assert longer[..|order|] == order && longer[|order|] == id;
    if id in actions { KeepsPlaceExactly(actions[id].status); }
  }

  /** The statuses without a place are those a request ends in, apart from success. */
  lemma KeepsPlaceExactly(s: ActionStatus)
    ensures IsReserved(s) <==> s !in {Denied, Rejected, Superseded, Failed, ActionStatus.Conflict}
    ensures IsOpen(s) <==> IsReserved(s) && !s.Succeeded?
  {
    match s {
      case Allowed => case Denied => case PendingApproval => case Approved => case Rejected => case Superseded =>
      case Executing => case Succeeded => case Failed => case Conflict => case Unknown => case Reconciling =>
    }
  }
}
