/** Coupling of requests, attempts and approvals, and the finality of completion. */
module CoreInvariant {
  import opened Contracts
  import opened Store
  import opened Protocol
  import opened Frames
  import Gateway
  import Reviews
  import Processes
  import Ingestion
  import Execution
  import Outbox
  import Transitions

  // ------------------------------------------------------------ invariant

  predicate InFlight(s: ActionStatus) { s in {Executing, Unknown, Reconciling} }

  /** A terminal attempt and its request agree; otherwise both are in flight. */
  predicate Coupled(request: ActionStatus, attempt: ActionStatus) {
    if IsFinal(attempt) then request == attempt else InFlight(attempt) && InFlight(request)
  }

  /** The statuses each policy outcome allows, together with the approval and its thread. */
  predicate FollowsPolicy(a: Action) {
    match a.outcome
    case Allow => a.approval.NotNeeded? && (a.status.Allowed? || Execution.Retryable(a.status))
    case Deny => a.approval.NotNeeded? && a.status.Denied?
    case RequireApproval =>
      && a.approval.Approval?
      && match a.approval.status
         case Awaiting => a.approval.thread.ThreadOpen? && a.status.PendingApproval?
         case Granted => a.approval.thread.ThreadApproved? && (a.status.Approved? || Execution.Retryable(a.status))
         case Refused => a.approval.thread.ThreadRejected? && a.status.Rejected?
         case Replaced => a.approval.thread.RevisionRequested? && a.status.Superseded?
  }

  ghost predicate ActionOk(db: Db, id: Id)
    requires id in db.actions
  {
    var a := db.actions[id];
    var k := KeyOf(id, a);
    && a.process in db.processes
    && FollowsPolicy(a)
    && (if k in db.attempts
        then Coupled(a.status, db.attempts[k].status) && !a.outcome.Deny? &&
             (a.outcome.RequireApproval? ==> Execution.HasGrant(db.approvals, id, a.payload))
        else !Execution.Retryable(a.status))
  }

  ghost predicate AttemptOk(db: Db, k: Key) {
    k.request in db.actions && k == KeyOf(k.request, db.actions[k.request])
  }

  /** A completed process has nothing open and meets its requirements. */
  ghost predicate CompletionOk(db: Db, p: Id)
    requires p in db.processes
  {
    db.processes[p].status.Completed? ==>
      && Transitions.Satisfied(db.processes[p].facts.authoritative, db.processes[p].definition.requirements)
      && forall id :: id in db.actions && db.actions[id].process == p ==> !IsOpen(db.actions[id].status)
  }

  ghost predicate CoreInv(db: Db) {
    && (forall id :: id in db.actions ==> ActionOk(db, id))
    && (forall k :: k in db.attempts ==> AttemptOk(db, k))
    && db.approvals.Keys <= db.reviews.Keys
    && (forall p :: p in db.processes ==> CompletionOk(db, p))
  }

  // ------------------------------------------------------- generic carriers

  /** Only processes change, and none becomes completed. */
  ghost predicate OnlyProcesses(db: Db, after: Db) {
    && after.actions == db.actions && after.attempts == db.attempts && after.approvals == db.approvals
    && after.reviews == db.reviews && db.processes.Keys <= after.processes.Keys
    && forall p :: p in after.processes ==>
         !after.processes[p].status.Completed? || (p in db.processes && after.processes[p] == db.processes[p])
  }

  lemma ProcessesCarry(db: Db, after: Db)
    requires CoreInv(db) && OnlyProcesses(db, after)
    ensures CoreInv(after)
  {
    forall id | id in after.actions ensures ActionOk(after, id) {
      assert ActionOk(db, id);
    }
    forall k | k in after.attempts ensures AttemptOk(after, k) {
      assert AttemptOk(db, k);
    }
    forall p | p in after.processes ensures CompletionOk(after, p) {
      if after.processes[p].status.Completed? { assert CompletionOk(db, p); }
    }
  }

  lemma GrantsStay(before: map<Id, ApprovalDecision>, after: map<Id, ApprovalDecision>, id: Id, payload: Payload)
    requires forall c :: c in before ==> c in after && after[c] == before[c]
    requires Execution.HasGrant(before, id, payload)
    ensures Execution.HasGrant(after, id, payload)
  {
    var c :| c in before && before[c].request == id && before[c].granted && before[c].payload == payload;
    assert c in after;
  }

  lemma OthersCarry(db: Db, after: Db, id: Id, other: Id)
    requires CoreInv(db) && OnlyAction(db, after, id) && other in db.actions && other != id
    ensures ActionOk(after, other)
  {
    assert ActionOk(db, other);
    var a := db.actions[other];
    assert after.actions[other] == a;
    var k := KeyOf(other, a);
    if k in db.attempts && a.outcome.RequireApproval? {
      GrantsStay(db.approvals, after.approvals, other, a.payload);
    }
  }

  lemma ActionCarries(db: Db, after: Db, id: Id)
    requires CoreInv(db) && OnlyAction(db, after, id)
    requires ActionOk(after, id) && after.approvals.Keys <= after.reviews.Keys
    requires IsOpen(after.actions[id].status) ==>
               db.actions[id].process in db.processes && !db.processes[db.actions[id].process].status.Completed?
    ensures CoreInv(after)
  {
    forall other | other in after.actions ensures ActionOk(after, other) {
      if other != id { OthersCarry(db, after, id, other); }
    }
    forall k | k in after.attempts ensures AttemptOk(after, k) {
      if k != KeyOf(id, db.actions[id]) { assert AttemptOk(db, k); }
    }
    forall p | p in after.processes ensures CompletionOk(after, p) {
      assert CompletionOk(db, p);
    }
  }

  /** A request whose attempt is not terminal is open, so its process is not completed. */
  lemma InFlightIsNotCompleted(db: Db, k: Key)
    requires CoreInv(db) && k in db.attempts && !IsFinal(db.attempts[k].status)
    ensures AttemptOk(db, k) && InFlight(db.actions[k.request].status)
    ensures k.process in db.processes && !db.processes[k.process].status.Completed?
  {
    assert AttemptOk(db, k);
    assert ActionOk(db, k.request);
    assert CompletionOk(db, k.process);
  }

  // --------------------------------------------------- the action transactions

  lemma OutboxIsIrrelevant(db: Db, after: Db)
    requires CoreInv(db) && after == db.(outbox := after.outbox)
    ensures CoreInv(after)
  {
    ProcessesCarry(db, after);
  }

  lemma AwaitingHasNoAttempt(db: Db, id: Id)
    requires id in db.actions && ActionOk(db, id)
    requires db.actions[id].approval.Approval? && db.actions[id].approval.status.Awaiting?
    ensures KeyOf(id, db.actions[id]) !in db.attempts
    ensures db.actions[id].outcome.RequireApproval? && db.actions[id].status.PendingApproval?
    ensures db.actions[id].approval.thread.ThreadOpen?
  {}

  lemma ReviewedFollowsPolicy(a: Action, kind: ReviewKind)
    requires a.outcome.RequireApproval? && FollowsPolicy(a) && a.approval.status.Awaiting?
    ensures FollowsPolicy(Reviews.Reviewed(a, kind)) && SameIdentity(a, Reviews.Reviewed(a, kind))
    ensures !Execution.Retryable(Reviews.Reviewed(a, kind).status)
  {}

  lemma ReviewedActionOk(db: Db, c: Reviews.ReviewCommand)
    requires c.thread in db.actions && ActionOk(db, c.thread) && db.actions[c.thread].approval.Approval?
    requires db.actions[c.thread].approval.status.Awaiting?
    ensures ActionOk(Reviews.Recorded(db, c), c.thread)
  {
    hide FollowsPolicy, Execution.HasGrant, Reviews.Reviewed, Reviews.Decisions, Execution.Retryable;
    AwaitingHasNoAttempt(db, c.thread);
    ReviewedFollowsPolicy(db.actions[c.thread], c.kind);
  }

  lemma ReviewKeepsCore(db: Db, c: Reviews.ReviewCommand)
    requires CoreInv(db)
    requires Reviews.TargetError(db, c).None? && c.id !in db.reviews && Reviews.PendingError(db, c).None?
    ensures CoreInv(Reviews.Recorded(db, c))
  {
    hide ActionOk, AttemptOk, CompletionOk, OnlyAction;
    assert ActionOk(db, c.thread);
    assert c.id !in db.approvals;
    ReviewedActionOk(db, c);
    ReviewFrame(db, c);
    var after := Reviews.Recorded(db, c);
    assert after.approvals.Keys <= after.reviews.Keys;
    ActionCarries(db, after, c.thread);
  }

  lemma ResolvedActionOk(db: Db, c: Reviews.ResolveCommand)
    requires c.attempt in db.attempts && AttemptOk(db, c.attempt) && ActionOk(db, c.attempt.request)
    requires db.attempts[c.attempt].status in {Unknown, Reconciling}
    ensures ActionOk(Reviews.Settled(db, c), c.attempt.request)
  {}

  lemma ResolveKeepsCore(db: Db, c: Reviews.ResolveCommand)
    requires CoreInv(db) && Reviews.ResolutionError(db, c).None? && c.attempt !in db.resolutions
    ensures CoreInv(Reviews.Settled(db, c))
  {
    hide ActionOk, CompletionOk, OnlyAction;
    assert AttemptOk(db, c.attempt);
    assert ActionOk(db, c.attempt.request);
    ResolvedActionOk(db, c);
    ResolveFrame(db, c);
    ActionCarries(db, Reviews.Settled(db, c), c.attempt.request);
  }

  /** What authorization establishes about a request it lets through. */
  lemma AuthorizedMayRun(db: Db, id: Id, status: ActionStatus)
    requires id in db.actions && FollowsPolicy(db.actions[id]) && Execution.Retryable(status)
    requires Execution.PolicyRefusal(db, id, db.actions[id]).None?
    ensures FollowsPolicy(db.actions[id].(status := status)) && !db.actions[id].outcome.Deny?
    ensures db.actions[id].outcome.RequireApproval? ==>
              Execution.HasGrant(db.approvals, id, db.actions[id].payload)
  {
    hide Execution.HasGrant;
  }

  lemma BothActionOk(db: Db, id: Id, status: ActionStatus, attempt: Attempt)
    requires id in db.actions && db.actions[id].process in db.processes
    requires FollowsPolicy(db.actions[id].(status := status)) && !db.actions[id].outcome.Deny?
    requires db.actions[id].outcome.RequireApproval? ==>
               Execution.HasGrant(db.approvals, id, db.actions[id].payload)
    requires Coupled(status, attempt.status)
    ensures ActionOk(Execution.WithBoth(db, id, status, attempt), id)
  {
    hide FollowsPolicy, Execution.HasGrant;
  }

  /** An authorized request may be set in flight together with its attempt. */
  lemma BothKeepsCore(db: Db, id: Id, status: ActionStatus, attempt: Attempt)
    requires CoreInv(db) && id in db.actions
    requires FollowsPolicy(db.actions[id].(status := status)) && !db.actions[id].outcome.Deny?
    requires db.actions[id].outcome.RequireApproval? ==>
               Execution.HasGrant(db.approvals, id, db.actions[id].payload)
    requires Coupled(status, attempt.status)
    requires KeyOf(id, db.actions[id]) in db.attempts ==>
               attempt.adapter == db.attempts[KeyOf(id, db.actions[id])].adapter
    requires db.actions[id].process in db.processes && !db.processes[db.actions[id].process].status.Completed?
    ensures CoreInv(Execution.WithBoth(db, id, status, attempt))
  {
    hide ActionOk, AttemptOk, CompletionOk, OnlyAction, FollowsPolicy, Execution.HasGrant;
    BothActionOk(db, id, status, attempt);
    BothFrame(db, id, status, attempt);
    ActionCarries(db, Execution.WithBoth(db, id, status, attempt), id);
  }

  lemma ReserveKeepsCore(db: Db, release: Deployment, adapter: Id, p: Id, id: Id, revision: nat)
    requires CoreInv(db)
    requires Execution.Reserve(db, release, adapter, p, id, revision).Ok?
    requires !Execution.Reserve(db, release, adapter, p, id, revision).value.1.AlreadyFinal?
    ensures CoreInv(Execution.Reserve(db, release, adapter, p, id, revision).value.0)
  {
    hide AttemptOk, CompletionOk, FollowsPolicy, Execution.Reserve, Execution.WithBoth, Execution.PolicyRefusal,
         Execution.HasGrant;
    ReserveIsBoth(db, release, adapter, p, id, revision);
    assert ActionOk(db, id);
    AuthorizedMayRun(db, id, Executing);
    var key := KeyOf(id, db.actions[id]);
    BothKeepsCore(db, id, Executing,
                  if key in db.attempts then db.attempts[key] else Attempt(adapter, Executing, Option.None));
  }

  lemma ReconcileKeepsCore(db: Db, release: Deployment, p: Id, id: Id, revision: nat)
    requires CoreInv(db)
    requires Execution.StartReconcile(db, release, p, id, revision).Ok?
    requires !Execution.StartReconcile(db, release, p, id, revision).value.1
    ensures CoreInv(Execution.StartReconcile(db, release, p, id, revision).value.0)
  {
    hide AttemptOk, CompletionOk, FollowsPolicy, Execution.StartReconcile, Execution.WithBoth,
         Execution.PolicyRefusal, Execution.HasGrant;
    ReconcileIsBoth(db, release, p, id, revision);
    assert ActionOk(db, id);
    AuthorizedMayRun(db, id, Reconciling);
    BothKeepsCore(db, id, Reconciling, db.attempts[KeyOf(id, db.actions[id])].(status := Reconciling));
  }

  lemma RunningFollows(a: Action, status: ActionStatus)
    requires FollowsPolicy(a) && Execution.Retryable(a.status) && Execution.Retryable(status)
    ensures FollowsPolicy(a.(status := status))
  {}

  lemma RecordKeepsCore(db: Db, key: Key, status: ActionStatus, effect: Option<Effect>)
    requires CoreInv(db) && Sound(Record(key, status, effect))
    ensures CoreInv(Execution.Record(db, key, status, effect))
  {
    if key in db.attempts && !IsFinal(db.attempts[key].status) {
      hide CompletionOk, FollowsPolicy, Execution.HasGrant;
      InFlightIsNotCompleted(db, key);
      assert AttemptOk(db, key) && ActionOk(db, key.request);
      RecordIsBoth(db, key, status, effect);
      RunningFollows(db.actions[key.request], status);
      BothKeepsCore(db, key.request, status, db.attempts[key].(status := status, effect := effect));
    }
  }

  // ------------------------------------------------------------ the gateway

  lemma InsertKeepsCore(db: Db, p: Id, turn: Id, proposal: Proposal, supersedes: Option<Id>)
    requires CoreInv(db) && p in db.processes && !db.processes[p].status.Completed?
    requires proposal.requestId !in db.actions
    ensures CoreInv(Gateway.Inserted(db, p, turn, proposal, supersedes))
  {
    var after := Gateway.Inserted(db, p, turn, proposal, supersedes);
    forall id | id in after.actions ensures ActionOk(after, id) {
      if id in db.actions {
        assert ActionOk(db, id);
      } else {
        assert KeyOf(id, after.actions[id]) in db.attempts ==> AttemptOk(db, KeyOf(id, after.actions[id]));
      }
    }
    forall k | k in after.attempts ensures AttemptOk(after, k) {
      assert AttemptOk(db, k);
    }
    forall q | q in after.processes ensures CompletionOk(after, q) {
      assert CompletionOk(db, q);
    }
  }

  lemma {:induction false} PersistUpToKeepsCore(db: Db, p: Id, turn: Id, actions: seq<Proposal>, n: nat,
                                                targets: seq<Gateway.Target>, conflicted: set<Payload>,
                                                breakers: Gateway.Breakers)
    requires CoreInv(db) && p in db.processes && !db.processes[p].status.Completed? && n <= |actions|
    ensures var r := Gateway.PersistUpTo(db, p, turn, actions, n, targets, conflicted, breakers);
            r.Ok? ==> CoreInv(r.value)
  {
    hide CoreInv, Gateway.Inserted, Gateway.PersistOne;
    if n > 0 {
      PersistUpToKeepsCore(db, p, turn, actions, n - 1, targets, conflicted, breakers);
      var before := Gateway.PersistUpTo(db, p, turn, actions, n - 1, targets, conflicted, breakers);
      var r := Gateway.PersistUpTo(db, p, turn, actions, n, targets, conflicted, breakers);
      if r.Ok? {
        var supersedes := Gateway.Assigned(targets, actions, n)[n - 1];
        Gateway.PersistOneInserts(before.value, p, turn, actions[n - 1], supersedes, conflicted, breakers);
        if (p, turn, actions[n - 1].logicalKey) !in before.value.slots {
          InsertKeepsCore(before.value, p, turn, actions[n - 1], supersedes);
        }
      }
    }
  }

  lemma PersistKeepsCore(db: Db, p: Id, turn: Id, d: Decision, breakers: Gateway.Breakers)
    requires CoreInv(db)
    ensures var r := Gateway.Persisted(db, p, turn, d, breakers);
            r.Ok? ==> CoreInv(r.value)
  {
    hide CoreInv, Gateway.PersistUpTo;
    if Gateway.Closed(db, p, breakers).None? {
      PersistUpToKeepsCore(db, p, turn, d.actions, |d.actions|, Gateway.RevisionTargets(db, p, d.reviewIds),
                           Gateway.ConflictedPayloads(db, p, d.attemptIds), breakers);
    }
  }

  // -------------------------------------------------- the process transactions

  lemma DecideKeepsCore(db: Db, p: Id, turn: Id, d: Decision, limits: Processes.Limits)
    requires CoreInv(db)
    ensures var r := Processes.Decided(db, p, turn, d, limits);
            r.Ok? ==> CoreInv(r.value)
  {
    var r := Processes.Decided(db, p, turn, d, limits);
    if r.Ok? && r.value != db {
      var after := r.value;
      var process, open := db.processes[p], OpenActions(db.actions, p);
      Transitions.CompletionExactly(d, open, process.definition.mayComplete,
                                    after.processes[p].facts.authoritative, process.definition.requirements);
      if after.processes[p].status.Completed? {
        CompletingKeepsCore(db, after, p);
      } else {
        ProcessesCarry(db, after);
      }
    }
  }

  lemma CompletingKeepsCore(db: Db, after: Db, p: Id)
    requires CoreInv(db) && p in db.processes && OpenActions(db.actions, p) == map[]
    requires after == db.(processes := after.processes) && p in after.processes
    requires after.processes == db.processes[p := after.processes[p]]
    requires Transitions.Satisfied(
               after.processes[p].facts.authoritative, after.processes[p].definition.requirements)
    ensures CoreInv(after)
  {
    forall id | id in after.actions ensures ActionOk(after, id) {
      assert ActionOk(db, id);
    }
    forall k | k in after.attempts ensures AttemptOk(after, k) {
      assert AttemptOk(db, k);
    }
    forall q | q in after.processes ensures CompletionOk(after, q) {
      if q != p { assert CompletionOk(db, q); }
      assert forall id :: id in db.actions && db.actions[id].process == p && IsOpen(db.actions[id].status) ==>
                          id in OpenActions(db.actions, p);
    }
  }

  lemma OpenProcessCarries(db: Db, after: Db, p: Id)
    requires CoreInv(db) && OnlyProcess(db, after, p)
    requires !after.processes[p].status.Completed? || after.processes[p] == db.processes[p]
    ensures CoreInv(after)
  {
    ProcessesCarry(db, after);
  }

  lemma InterveneKeepsCore(db: Db, p: Id, turn: Id)
    requires CoreInv(db)
    ensures var r := Processes.Intervened(db, p, turn);
            r.Ok? ==> CoreInv(r.value)
  {
    hide CoreInv, OnlyProcess;
    var r := Processes.Intervened(db, p, turn);
    if r.Ok? && r.value != db {
      InterveneFrame(db, p, turn);
      OpenProcessCarries(db, r.value, p);
    }
  }

  lemma ControlKeepsCore(db: Db, c: Processes.ControlCommand, eventId: Id)
    requires CoreInv(db)
    ensures var r := Processes.Commanded(db, c, eventId);
            r.Ok? ==> CoreInv(r.value)
  {
    hide CoreInv, OnlyProcess, Processes.ControlRefusal, Processes.Carried;
    if Processes.ControlRefusal(db, c, eventId).None? {
      ControlFrame(db, c, eventId);
      OpenProcessCarries(db, Processes.Carried(db, c, eventId), c.process);
    }
  }

  lemma IngestKeepsCore(db: Db, e: Event, bootstrap: Option<Ingestion.Bootstrap>, ingress: Option<Deployment>, newId: Id)
    requires CoreInv(db)
    ensures var r := Ingestion.Ingested(db, e, bootstrap, ingress, newId);
            r.Ok? ==> CoreInv(r.value)
  {
    hide CoreInv, Ingestion.IngestRefusal, Ingestion.Admitted, Ingestion.FinalMatch;
    if Ingestion.IngestRefusal(db, e, bootstrap, newId).None? {
      IngestFrame(db, e, bootstrap, newId);
      ProcessesCarry(db, Ingestion.Admitted(db, e, bootstrap, newId));
    }
  }

  lemma UnparkKeepsCore(db: Db, c: Ingestion.ResolveQuarantine, ingress: Option<Deployment>)
    requires CoreInv(db)
    ensures var r := Ingestion.Unparked(db, c, ingress);
            r.Ok? ==> CoreInv(r.value)
  {
    hide CoreInv, Ingestion.QuarantineRefusal, Ingestion.Released;
    if Ingestion.QuarantineRefusal(db, c).None? {
      UnparkFrame(db, c);
      ProcessesCarry(db, Ingestion.Released(db, c));
    }
  }

  lemma ActionTxKeepsCore(db: Db, tx: Tx)
    requires CoreInv(db) && Sound(tx)
    requires OfAction(tx)
    ensures CoreInv(ApplyAction(db, tx))
  {
    hide CoreInv, Execution.Reserve, Execution.Record, Execution.StartReconcile, Reviews.Recorded, Reviews.Settled;
    match tx {
      case ReviewTx(c) =>
        var r := Reviews.AppliedReview(db, c);
        if r.Ok? && c.id !in db.reviews {
          ReviewKeepsCore(db, c);
          OutboxIsIrrelevant(Reviews.Recorded(db, c), r.value);
        }
      case Resolve(c) =>
        var r := Reviews.Resolved(db, c);
        if r.Ok? && c.attempt !in db.resolutions {
          ResolveKeepsCore(db, c);
          OutboxIsIrrelevant(Reviews.Settled(db, c), r.value);
        }
      case Reserve(release, adapter, p, id, revision) =>
        var r := Execution.Reserve(db, release, adapter, p, id, revision);
        if r.Ok? {
          FinalReserveChangesNothing(db, release, adapter, p, id, revision);
          if !r.value.1.AlreadyFinal? { ReserveKeepsCore(db, release, adapter, p, id, revision); }
        }
      case Record(key, status, effect) => RecordKeepsCore(db, key, status, effect);
      case Reconcile(release, p, id, revision) =>
        var r := Execution.StartReconcile(db, release, p, id, revision);
        if r.Ok? {
          FinalReconcileChangesNothing(db, release, p, id, revision);
          if !r.value.1 { ReconcileKeepsCore(db, release, p, id, revision); }
        }
    }
  }

  lemma FinalReserveChangesNothing(db: Db, release: Deployment, adapter: Id, p: Id, id: Id, revision: nat)
    ensures var r := Execution.Reserve(db, release, adapter, p, id, revision);
            r.Ok? && r.value.1.AlreadyFinal? ==> r.value.0 == db
  {
    hide Execution.Refusal;
  }

  lemma FinalReconcileChangesNothing(db: Db, release: Deployment, p: Id, id: Id, revision: nat)
    ensures var r := Execution.StartReconcile(db, release, p, id, revision);
            r.Ok? && r.value.1 ==> r.value.0 == db
  {
    hide Execution.Refusal;
  }

  lemma ProcessTxKeepsCore(db: Db, tx: Tx)
    requires CoreInv(db)
    requires !OfTenant(tx) && !OfAction(tx)
    ensures CoreInv(ApplyProcess(db, tx))
  {
    hide CoreInv, Ingestion.Ingested, Ingestion.Unparked, Gateway.Persisted, Processes.Decided,
         Processes.Intervened, Processes.Commanded;
    match tx {
      case Ingest(e, bootstrap, ingress, newId) => IngestKeepsCore(db, e, bootstrap, ingress, newId);
      case Unpark(c, ingress) => UnparkKeepsCore(db, c, ingress);
      case Persist(p, turn, d, breakers) => PersistKeepsCore(db, p, turn, d, breakers);
      case Decide(p, turn, d, limits) => DecideKeepsCore(db, p, turn, d, limits);
      case Intervene(p, turn) => InterveneKeepsCore(db, p, turn);
      case ControlTx(c, eventId) => ControlKeepsCore(db, c, eventId);
    }
  }

  lemma TenantCarries(db: Db, clock: int, active: bool, deployment: Deployment,
                      outbox: map<Outbox.DedupKey, Outbox.Message>)
    requires CoreInv(db)
    ensures CoreInv(db.(clock := clock, active := active, deployment := deployment, outbox := outbox))
  {
    hide CoreInv;
    ProcessesCarry(db, db.(clock := clock, active := active, deployment := deployment, outbox := outbox));
  }

  lemma TenantTxKeepsCore(db: Db, tx: Tx)
    requires CoreInv(db) && OfTenant(tx)
    ensures CoreInv(ApplyTenant(db, tx))
  {
    hide CoreInv, Ingestion.HasActiveProcess, Ingestion.HasOutstanding, RowsEvolve;
    match tx {
      case Tick(seconds) => TenantCarries(db, db.clock + seconds, db.active, db.deployment, db.outbox);
      case SetActive(flag) => TenantCarries(db, db.clock, flag, db.deployment, db.outbox);
      case Assign(target, _) => TenantCarries(db, db.clock, db.active, target, db.outbox);
      case Dispatch(rows) => TenantCarries(db, db.clock, db.active, db.deployment, rows);
    }
  }

  /** Every transaction keeps the coupling and the meaning of completion. */
  lemma ApplyKeepsCore(db: Db, tx: Tx)
    requires CoreInv(db) && Sound(tx)
    ensures CoreInv(Apply(db, tx))
  {
    hide CoreInv, ApplyTenant, ApplyAction, ApplyProcess;
    if OfAction(tx) {
      ActionTxKeepsCore(db, tx);
    } else if OfTenant(tx) {
      TenantTxKeepsCore(db, tx);
    } else {
      ProcessTxKeepsCore(db, tx);
    }
  }

  lemma {:induction false} RunKeepsCore(db: Db, txs: seq<Tx>)
    requires CoreInv(db) && forall i :: 0 <= i < |txs| ==> Sound(txs[i])
    ensures CoreInv(Run(db, txs))
  {
    hide CoreInv, Apply;
    if txs != [] {
      RunKeepsCore(db, txs[..|txs| - 1]);
      ApplyKeepsCore(Run(db, txs[..|txs| - 1]), txs[|txs| - 1]);
    }
  }
}
