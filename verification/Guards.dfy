/** What an accepted transaction says about the state it was accepted in. */
module Guards {
  import opened Contracts
  import opened Store
  import opened Protocol
  import opened Frames
  import opened Footprints
  import Communications
  import Executors
  import Execution
  import Gateway
  import Histories
  import Ingestion
  import Knowledge
  import Outbox
  import Processes
  import Reviews

  // -------------------------------------------------------- provider calls

  /** The tenant is active on the release, the process is open on it and alive, the policy
      allows the request or an unexpired approval and an immutable grant cover its payload, and
      a customer message is reserved and admitted now. */
  ghost predicate Authorized(db: Db, release: Deployment, p: Id, id: Id) {
    && db.active && db.deployment == release && p in db.processes && id in db.actions
    && var process, a := db.processes[p], db.actions[id];
       && a.process == p && process.deployment == release
       && process.status in {Active, Waiting, Review}
       && db.clock < process.createdAt + process.definition.comms.lifetime
       && !a.outcome.Deny?
       && (a.outcome.RequireApproval? ==>
             && a.approval.Approval? && a.approval.status.Granted?
             && (a.approval.expiresAt.Some? ==> db.clock < a.approval.expiresAt.value)
             && Execution.HasGrant(db.approvals, id, a.payload))
       && (a.payload.actionType in process.definition.comms.outboundTypes ==>
             IsReserved(a.status) &&
             Communications.Allowed(process.definition.comms, Inspect(db, p, Some(id)), db.clock))
  }

  lemma MayCallIsAuthorized(db: Db, release: Deployment, p: Id, id: Id, revision: nat, breakers: Gateway.Breakers)
    requires Execution.Cross(db, release, p, id, revision, breakers) == Ok(Execution.MayCall)
    ensures Authorized(db, release, p, id) && !Execution.BreakerStops(db, p, id, breakers)
  {
    hide Communications.Allowed, Inspect, Execution.HasGrant, Execution.BreakerStops;
  }

  /** Every provider call of every run, by whichever executor, happens in a state that
      authorizes exactly that request at that moment. */
  lemma CallsAreAuthorized(w: Executors.World, step: Executors.Step, safe: set<Id>)
    requires Executors.Next(w, step, safe).calls != w.calls
    ensures step.Cross? && step.x in w.executors
    ensures var e := w.executors[step.x];
            && Authorized(w.db, e.release, e.process, e.request)
            && !Execution.BreakerStops(w.db, e.process, e.request, step.breakers)
            && Executors.Next(w, step, safe).calls == w.calls + multiset{e.key}
  {
    hide Authorized, Execution.BreakerStops, Execution.Cross, Execution.Reserve, Execution.StartReconcile,
         Execution.Record, Apply;
    var e := w.executors[step.x];
    MayCallIsAuthorized(w.db, e.release, e.process, e.request, e.revision, step.breakers);
  }

  // ------------------------------------------------------------- the gateway

  /** The stored request of a proposal: same payload, the assigned lineage, and, when it is
      new, the status its permission prescribes and none of the gates against it. */
  ghost predicate StoredAs(before: Db, after: Db, p: Id, turn: Id, proposal: Proposal, supersedes: Option<Id>,
                           conflicted: set<Payload>, breakers: Gateway.Breakers)
    requires p in before.processes
  {
    var slot := (p, turn, proposal.logicalKey);
    && slot in after.slots && after.slots[slot] in after.actions
    && var a := after.actions[after.slots[slot]];
       && a.payload == PayloadOf(proposal) && a.supersedes == supersedes
       && (slot !in before.slots ==>
             && a.process == p && a.turn == turn
             && a.outcome == Gateway.PermissionOf(before.processes[p].definition, proposal.actionType)
             && a.status == Gateway.InitialStatus(a.outcome)
             && (a.approval.Approval? <==> a.outcome.RequireApproval?)
             && PayloadOf(proposal) !in conflicted
             && proposal.actionType !in breakers.capabilities
             && (Gateway.IsOutbound(before, p, proposal) ==> !breakers.outbound))
  }

  lemma PersistOneStoresAs(db: Db, p: Id, turn: Id, proposal: Proposal, supersedes: Option<Id>,
                           conflicted: set<Payload>, breakers: Gateway.Breakers)
    requires p in db.processes
    requires Gateway.PersistOne(db, p, turn, proposal, supersedes, conflicted, breakers).Ok?
    ensures StoredAs(db, Gateway.PersistOne(db, p, turn, proposal, supersedes, conflicted, breakers).value,
                     p, turn, proposal, supersedes, conflicted, breakers)
  {
    hide Communications.Allowed, Inspect;
  }

  /** Slots and the requests in them never change while a decision is persisted. */
  ghost predicate SlotsStay(db: Db, after: Db) {
    && after.processes == db.processes
    && (forall id :: id in db.actions ==> id in after.actions && after.actions[id] == db.actions[id])
    && (forall s :: s in db.slots ==> s in after.slots && after.slots[s] == db.slots[s])
  }

  lemma InsertedKeepsSlots(db: Db, p: Id, turn: Id, proposal: Proposal, supersedes: Option<Id>)
    requires p in db.processes && proposal.requestId !in db.actions
    requires (p, turn, proposal.logicalKey) !in db.slots
    ensures SlotsStay(db, Gateway.Inserted(db, p, turn, proposal, supersedes))
  {
    hide Gateway.NewAction;
  }

  lemma PersistOneKeepsSlots(db: Db, p: Id, turn: Id, proposal: Proposal, supersedes: Option<Id>,
                             conflicted: set<Payload>, breakers: Gateway.Breakers)
    requires p in db.processes
    requires Gateway.PersistOne(db, p, turn, proposal, supersedes, conflicted, breakers).Ok?
    ensures SlotsStay(db, Gateway.PersistOne(db, p, turn, proposal, supersedes, conflicted, breakers).value)
  {
    hide Gateway.PersistOne, Gateway.Inserted, Communications.Allowed, Inspect;
    Gateway.PersistOneInserts(db, p, turn, proposal, supersedes, conflicted, breakers);
    if (p, turn, proposal.logicalKey) !in db.slots {
      InsertedKeepsSlots(db, p, turn, proposal, supersedes);
    }
  }

  lemma StoredStays(db: Db, mid: Db, after: Db, p: Id, turn: Id, proposal: Proposal, supersedes: Option<Id>,
                    conflicted: set<Payload>, breakers: Gateway.Breakers)
    requires p in db.processes && StoredAs(db, mid, p, turn, proposal, supersedes, conflicted, breakers)
    requires SlotsStay(mid, after)
    ensures StoredAs(db, after, p, turn, proposal, supersedes, conflicted, breakers)
  {}

  /** A request stored by an earlier proposal of the same decision passed the same gates. */
  lemma RepeatedKeyIsStoredAs(db: Db, mid: Db, after: Db, p: Id, turn: Id, first: Proposal, firstSupersedes: Option<Id>,
                              proposal: Proposal, supersedes: Option<Id>, conflicted: set<Payload>,
                              breakers: Gateway.Breakers)
    requires p in db.processes && mid.processes == db.processes && first.logicalKey == proposal.logicalKey
    requires StoredAs(db, mid, p, turn, first, firstSupersedes, conflicted, breakers)
    requires StoredAs(mid, after, p, turn, proposal, supersedes, conflicted, breakers)
    requires SlotsStay(mid, after)
    ensures StoredAs(db, after, p, turn, proposal, supersedes, conflicted, breakers)
  {}

  ghost predicate FirstOwns(db: Db, mid: Db, p: Id, turn: Id, actions: seq<Proposal>, n: nat)
    requires n <= |actions|
  {
    forall s :: s in mid.slots && s !in db.slots ==>
      exists i :: 0 <= i < n && s == (p, turn, actions[i].logicalKey)
  }

  /** Every accepted proposal is stored as proposed, and every new one passed every gate. */
  lemma {:induction false} PersistedAsProposed(db: Db, p: Id, turn: Id, actions: seq<Proposal>, n: nat,
                                               targets: seq<Gateway.Target>, conflicted: set<Payload>,
                                               breakers: Gateway.Breakers)
    requires p in db.processes && n <= |actions|
    requires Gateway.PersistUpTo(db, p, turn, actions, n, targets, conflicted, breakers).Ok?
    ensures var after := Gateway.PersistUpTo(db, p, turn, actions, n, targets, conflicted, breakers).value;
            && SlotsStay(db, after) && FirstOwns(db, after, p, turn, actions, n)
            && forall i :: 0 <= i < n ==>
                 StoredAs(db, after, p, turn, actions[i], Gateway.Assigned(targets, actions, n)[i], conflicted, breakers)
  {
    hide Gateway.PersistOne, StoredAs, Gateway.FirstTarget;
    if n > 0 {
      PersistedAsProposed(db, p, turn, actions, n - 1, targets, conflicted, breakers);
      var mid := Gateway.PersistUpTo(db, p, turn, actions, n - 1, targets, conflicted, breakers).value;
      var after := Gateway.PersistUpTo(db, p, turn, actions, n, targets, conflicted, breakers).value;
      var chosen := Gateway.Assigned(targets, actions, n);
      Gateway.AssignedPrefix(targets, actions, n - 1, n);
      PersistOneStoresAs(mid, p, turn, actions[n - 1], chosen[n - 1], conflicted, breakers);
      PersistOneKeepsSlots(mid, p, turn, actions[n - 1], chosen[n - 1], conflicted, breakers);
      OwnsAfterOne(db, mid, after, p, turn, actions, n, chosen[n - 1], conflicted, breakers);
      forall i | 0 <= i < n
        ensures StoredAs(db, after, p, turn, actions[i], chosen[i], conflicted, breakers)
      {
        if i < n - 1 {
          assert chosen[i] == chosen[..n - 1][i];
          StoredStays(db, mid, after, p, turn, actions[i], chosen[i], conflicted, breakers);
        } else {
          LastIsStoredAs(db, mid, after, p, turn, actions, n, chosen, conflicted, breakers);
        }
      }
    }
  }

  lemma OwnsAfterOne(db: Db, mid: Db, after: Db, p: Id, turn: Id, actions: seq<Proposal>, n: nat,
                     supersedes: Option<Id>, conflicted: set<Payload>, breakers: Gateway.Breakers)
    requires 0 < n <= |actions| && p in mid.processes && FirstOwns(db, mid, p, turn, actions, n - 1)
    requires Gateway.PersistOne(mid, p, turn, actions[n - 1], supersedes, conflicted, breakers) == Ok(after)
    ensures FirstOwns(db, after, p, turn, actions, n)
  {
    hide Gateway.PersistOne, Gateway.NewAction;
    Gateway.PersistOneInserts(mid, p, turn, actions[n - 1], supersedes, conflicted, breakers);
    forall s | s in after.slots && s !in db.slots
      ensures exists i :: 0 <= i < n && s == (p, turn, actions[i].logicalKey)
    {
      if s !in mid.slots { assert s == (p, turn, actions[n - 1].logicalKey); }
    }
  }

  lemma LastIsStoredAs(db: Db, mid: Db, after: Db, p: Id, turn: Id, actions: seq<Proposal>, n: nat,
                       chosen: seq<Option<Id>>, conflicted: set<Payload>, breakers: Gateway.Breakers)
    requires 0 < n <= |actions| && |chosen| == n && p in db.processes && mid.processes == db.processes
    requires SlotsStay(db, mid) && SlotsStay(mid, after) && FirstOwns(db, mid, p, turn, actions, n - 1)
    requires forall i :: 0 <= i < n - 1 ==> StoredAs(db, mid, p, turn, actions[i], chosen[i], conflicted, breakers)
    requires StoredAs(mid, after, p, turn, actions[n - 1], chosen[n - 1], conflicted, breakers)
    ensures StoredAs(db, after, p, turn, actions[n - 1], chosen[n - 1], conflicted, breakers)
  {
    var slot := (p, turn, actions[n - 1].logicalKey);
    if slot in mid.slots && slot !in db.slots {
      hide StoredAs;
      var i :| 0 <= i < n - 1 && slot == (p, turn, actions[i].logicalKey);
      RepeatedKeyIsStoredAs(db, mid, after, p, turn, actions[i], chosen[i], actions[n - 1], chosen[n - 1],
                            conflicted, breakers);
    }
  }

  // -------------------------------------------------------------- approvals

  /** An approval is recorded only for a pending, unexpired proposal whose payload is the one the
      approver was shown, and grants exactly that payload. */
  lemma ApprovalBindsPayload(db: Db, c: Reviews.ReviewCommand)
    requires c.kind.Approve? && c.id !in db.reviews && Reviews.AppliedReview(db, c).Ok?
    ensures c.request in db.actions
    ensures var before, after := db.actions[c.request], Reviews.AppliedReview(db, c).value;
            && before.approval.Approval? && before.approval.status.Awaiting?
            && (before.approval.expiresAt.Some? ==> db.clock < before.approval.expiresAt.value)
            && c.expected == Some(before.payload)
            && after.actions[c.request].status.Approved? && Execution.HasGrant(after.approvals, c.request, before.payload)
  {
    hide Enqueued;
    var after := Reviews.AppliedReview(db, c).value;
    assert c.id in after.approvals;
  }

  // -------------------------------------------------------------- correlation

  /** A new event is delivered exactly when it belongs to a process that is not terminal. */
  lemma IngestSchedulesExactly(db: Db, e: Event, bootstrap: Option<Ingestion.Bootstrap>, newId: Id)
    requires Ingestion.IngestRefusal(db, e, bootstrap, newId).None? && Outbox.EventKey(e.id) !in db.outbox
    ensures var after := Ingestion.Admitted(db, e, bootstrap, newId);
            && e.id in after.inbox
            && var row := after.inbox[e.id];
               && (Outbox.EventKey(e.id) in after.outbox <==>
                   row.process.Some? && row.process.value in after.processes &&
                   !IsTerminal(after.processes[row.process.value].status))
               && (Outbox.EventKey(e.id) in after.outbox ==>
                     after.outbox[Outbox.EventKey(e.id)] == Outbox.Fresh(row.process.value, Some(e.id), db.clock))
               && (row.status.Matched? ==>
                     row.process.Some? && row.process.value in after.processes &&
                     (row.reason.TerminalRecordOnly? <==> IsTerminal(after.processes[row.process.value].status)))
  {
    hide Ingestion.FinalMatch, Ingestion.Bound, Ingestion.Correlated, Ingestion.WithProcess, Ingestion.IngestRefusal;
    var m := Ingestion.FinalMatch(db, e, bootstrap, newId);
    MatchShape(db, e, bootstrap, newId);
    MatchIsBound(db, e, bootstrap, newId);
    MatchExists(db, e, bootstrap, newId);
    CorrelatedFrame(db, e, m, bootstrap);
  }

  lemma MatchExists(db: Db, e: Event, bootstrap: Option<Ingestion.Bootstrap>, newId: Id)
    requires Ingestion.IngestRefusal(db, e, bootstrap, newId).None?
    ensures var m := Ingestion.FinalMatch(db, e, bootstrap, newId);
            m.status.Matched? ==> m.process.Some? && m.process.value in Ingestion.WithProcess(db, m, bootstrap).processes
  {
    hide Ingestion.FinalMatch, Ingestion.Bound, Ingestion.WithProcess;
  }

  // --------------------------------------------------------------- knowledge

  /** What an applied decision taught the process: each key holds the last observation of its
      events in order and then of its action attempts in order, and provenance names it. */
  lemma DecisionLearns(db: Db, p: Id, turn: Id, d: Decision, limits: Processes.Limits, kind: FactKind, key: string)
    requires p in db.processes && !Processes.UsesTurn(db.processes[p].history, turn)
    requires Processes.Decided(db, p, turn, d, limits).Ok?
    ensures Processes.EventsAvailable(db, p, d.eventIds) && Processes.AttemptsAvailable(db, p, d.attemptIds)
    ensures var after := Processes.Decided(db, p, turn, d, limits).value;
            p in after.processes
    ensures var before, learned := db.processes[p].facts, Processes.Decided(db, p, turn, d, limits).value.processes[p].facts;
            var writes := Knowledge.Writes(
              Processes.EventSources(db, p, d.eventIds) + Processes.AttemptSources(db, p, d.attemptIds));
            match Knowledge.LastWrite(writes, kind, key)
            case Some(w) =>
              key in learned.Facts(kind) && learned.Facts(kind)[key] == w.fact.value &&
              (kind, key) in learned.provenance && learned.provenance[(kind, key)] == w.origin
            case None =>
              (key in learned.Facts(kind) <==> key in before.Facts(kind)) &&
              (key in before.Facts(kind) ==> learned.Facts(kind)[key] == before.Facts(kind)[key])
  {
    hide Processes.EventSources, Processes.AttemptSources, Knowledge.Writes, Knowledge.Fold, Knowledge.LastWrite;
    Knowledge.FoldIsLastWriter(
      db.processes[p].facts,
      Knowledge.Writes(Processes.EventSources(db, p, d.eventIds) + Processes.AttemptSources(db, p, d.attemptIds)),
      kind, key);
  }

  // ------------------------------------------------------------------ pausing

  predicate IsPaused(db: Db, p: Id) {
    p in db.processes && db.processes[p].status.Paused?
  }

  ghost predicate RowStays(db: Db, after: Db, p: Id)
    requires p in db.processes
  {
    p in after.processes && after.processes[p] == db.processes[p]
  }

  /** The transaction is a retry or resume command for the process. */
  predicate Unpauses(tx: Tx, p: Id) {
    tx.ControlTx? && tx.command.process == p && (tx.command.kind.Retry? || tx.command.kind.Resume?)
  }

  lemma ControlOnPaused(db: Db, c: Processes.ControlCommand, eventId: Id, p: Id)
    requires IsPaused(db, p)
    ensures var r := Processes.Commanded(db, c, eventId);
            r.Ok? ==> (IsPaused(r.value, p) <==> !(r.value != db && Unpauses(ControlTx(c, eventId), p)))
    ensures var r := Processes.Commanded(db, c, eventId);
            r.Ok? && IsPaused(r.value, p) ==> r.value.processes[p] == db.processes[p]
  {
    hide Processes.ControlRefusal, Processes.Carried;
    var r := Processes.Commanded(db, c, eventId);
    if r.Ok? && c.id !in db.controls {
      ControlTargets(db, c, eventId);
      Histories.CarriedProcesses(db, c, eventId);
      if c.process == p { PausedTakesNoOther(db, c, eventId); }
      NewCommandIsStored(db, c, eventId);
    }
  }

  lemma PausedTakesNoOther(db: Db, c: Processes.ControlCommand, eventId: Id)
    requires Processes.ControlRefusal(db, c, eventId).None? && IsPaused(db, c.process)
    ensures c.kind.Retry? || c.kind.Resume?
  {
    hide Processes.WakeClashes, Processes.IsOpenIntervention;
  }

  lemma NewCommandIsStored(db: Db, c: Processes.ControlCommand, eventId: Id)
    requires c.process in db.processes && (c.kind.Retry? ==> c.intervention.Some?)
    ensures c.id in Processes.Carried(db, c, eventId).controls
  {
    hide Processes.Controlled, Enqueued, Processes.Woken;
    WakingKeepsControls(Processes.Obeyed(db, c), c, eventId);
  }

  lemma WakingKeepsControls(db: Db, c: Processes.ControlCommand, eventId: Id)
    ensures Processes.Woken(db, c, eventId).controls == db.controls
  {
    hide Processes.WakeEvent, Enqueued;
  }

  lemma OthersOnPaused(db: Db, tx: Tx, p: Id)
    requires IsPaused(db, p) && !OfTenant(tx) && !OfAction(tx) && !tx.ControlTx?
    ensures RowStays(db, ApplyProcess(db, tx), p)
  {
    hide Ingestion.Ingested, Ingestion.Unparked, Gateway.Persisted;
    match tx {
      case Ingest(e, bootstrap, ingress, newId) => IngestOnPaused(db, e, bootstrap, ingress, newId, p);
      case Unpark(_, _) => UnparkOnPaused(db, tx, p);
      case Persist(q, turn, d, breakers) => PersistTouches(db, q, turn, d, breakers);
      case Decide(q, turn, d, limits) => DecideOnPaused(db, q, turn, d, limits, p);
      case Intervene(_, _) =>
    }
  }

  lemma IngestOnPaused(db: Db, e: Event, bootstrap: Option<Ingestion.Bootstrap>, ingress: Option<Deployment>, newId: Id,
                       p: Id)
    requires IsPaused(db, p)
    ensures var r := Ingestion.Ingested(db, e, bootstrap, ingress, newId); r.Ok? ==> RowStays(db, r.value, p)
  {
    hide Ingestion.IngestRefusal, Ingestion.Admitted, Ingestion.FinalMatch;
    if Ingestion.IngestRefusal(db, e, bootstrap, newId).None? { IngestFrame(db, e, bootstrap, newId); }
  }

  lemma UnparkOnPaused(db: Db, tx: Tx, p: Id)
    requires IsPaused(db, p) && tx.Unpark?
    ensures RowStays(db, ApplyProcess(db, tx), p)
  {
    hide ApplyProcess;
    Histories.OthersKeepProcesses(db, tx);
  }

  /** A paused process makes no new decision. */
  lemma PausedDecidesNothing(db: Db, p: Id, turn: Id, d: Decision, limits: Processes.Limits)
    requires IsPaused(db, p)
    ensures var r := Processes.Decided(db, p, turn, d, limits); r.Ok? ==> r.value == db
  {
    hide Knowledge.Project;
  }

  /** It takes no proposal. */
  lemma PausedTakesNothing(db: Db, p: Id, turn: Id, d: Decision, breakers: Gateway.Breakers)
    requires IsPaused(db, p)
    ensures Gateway.Persisted(db, p, turn, d, breakers) == Err(Gateway.ProcessClosed)
  {}

  /** It reserves and reconciles nothing and crosses to no provider. */
  lemma PausedIsNotExecuted(db: Db, p: Id, breakers: Gateway.Breakers, release: Deployment, adapter: Id, id: Id,
                            revision: nat)
    requires IsPaused(db, p)
    ensures Execution.Reserve(db, release, adapter, p, id, revision).Err?
    ensures Execution.Cross(db, release, p, id, revision, breakers).Err?
    ensures Execution.StartReconcile(db, release, p, id, revision).Err?
  {
    hide Execution.PolicyRefusal, Inspect;
  }

  lemma DecideOnPaused(db: Db, q: Id, turn: Id, d: Decision, limits: Processes.Limits, p: Id)
    requires IsPaused(db, p)
    ensures var r := Processes.Decided(db, q, turn, d, limits); r.Ok? ==> RowStays(db, r.value, p)
  {
    hide Processes.Decided;
    var r := Processes.Decided(db, q, turn, d, limits);
    if q == p { PausedDecidesNothing(db, p, turn, d, limits); }
    else if r.Ok? && r.value != db { DecideFrame(db, q, turn, d, limits); }
  }

  /** A paused process stays paused, and keeps its whole row, under every transaction except
      exactly an accepted retry or resume command for it. */
  lemma PauseEndsExactly(db: Db, tx: Tx, p: Id)
    requires IsPaused(db, p)
    ensures IsPaused(Apply(db, tx), p) <==> !(Apply(db, tx) != db && Unpauses(tx, p))
    ensures IsPaused(Apply(db, tx), p) ==> RowStays(db, Apply(db, tx), p)
  {
    if tx.ControlTx? {
      hide Processes.Commanded;
      ControlOnPaused(db, tx.command, tx.eventId, p);
    } else {
      hide ApplyTenant, ApplyAction, ApplyProcess;
      if OfTenant(tx) { Histories.TenantTxKeepsProcesses(db, tx); }
      else if OfAction(tx) { Histories.ActionTxKeepsProcesses(db, tx); }
      else { OthersOnPaused(db, tx, p); }
    }
  }

  /** Only an accepted new takeover pauses a process. */
  lemma PauseBeginsExactly(db: Db, tx: Tx, p: Id)
    requires !IsPaused(db, p)
    ensures IsPaused(Apply(db, tx), p) <==>
            tx.ControlTx? && tx.command.process == p && tx.command.kind.Takeover? && Apply(db, tx) != db
  {
    if tx.ControlTx? {
      hide Processes.Commanded;
      TakeoverPauses(db, tx.command, tx.eventId, p);
    } else {
      hide ApplyTenant, ApplyAction, ApplyProcess;
      if OfTenant(tx) { Histories.TenantTxKeepsProcesses(db, tx); }
      else if OfAction(tx) { Histories.ActionTxKeepsProcesses(db, tx); }
      else { OthersPauseNothing(db, tx, p); }
    }
  }

  lemma TakeoverPauses(db: Db, c: Processes.ControlCommand, eventId: Id, p: Id)
    requires !IsPaused(db, p)
    ensures var r := Processes.Commanded(db, c, eventId);
            r.Ok? ==> (IsPaused(r.value, p) <==> c.process == p && c.kind.Takeover? && r.value != db)
  {
    hide Processes.Commanded, Processes.ControlMailed, Processes.ControlRefused;
    Processes.ControlAnswers(db, c, eventId);
    if Processes.Commanded(db, c, eventId).Ok? { NewCommandChanges(db, c, eventId); }
  }

  /** A new command changes the database, since it is kept. */
  lemma NewCommandChanges(db: Db, c: Processes.ControlCommand, eventId: Id)
    requires Processes.Commanded(db, c, eventId).Ok?
    ensures Processes.Commanded(db, c, eventId).value != db <==> c.id !in db.controls
  {
    hide Processes.Commanded, Processes.ControlMailed, Processes.ControlRefused, Processes.ControlledAs;
    Processes.ControlAnswers(db, c, eventId);
  }

  lemma OthersPauseNothing(db: Db, tx: Tx, p: Id)
    requires !IsPaused(db, p) && !OfTenant(tx) && !OfAction(tx) && !tx.ControlTx?
    ensures !IsPaused(ApplyProcess(db, tx), p)
  {
    hide Ingestion.Ingested, Ingestion.Unparked, Gateway.Persisted, Processes.Decided, Processes.Intervened;
    match tx {
      case Ingest(e, bootstrap, ingress, newId) => IngestPausesNothing(db, e, bootstrap, ingress, newId, p);
      case Unpark(_, _) => UnparkPausesNothing(db, tx, p);
      case Persist(q, turn, d, breakers) => PersistTouches(db, q, turn, d, breakers);
      case Decide(q, turn, d, limits) => DecisionPausesNothing(db, q, turn, d, limits, p);
      case Intervene(q, turn) => Processes.InterventionAnswers(db, q, turn);
    }
  }

  lemma IngestPausesNothing(db: Db, e: Event, bootstrap: Option<Ingestion.Bootstrap>, ingress: Option<Deployment>,
                            newId: Id, p: Id)
    requires !IsPaused(db, p)
    ensures var r := Ingestion.Ingested(db, e, bootstrap, ingress, newId); r.Ok? ==> !IsPaused(r.value, p)
  {
    hide Ingestion.IngestRefusal, Ingestion.Admitted, Ingestion.FinalMatch;
    if Ingestion.IngestRefusal(db, e, bootstrap, newId).None? { IngestFrame(db, e, bootstrap, newId); }
  }

  lemma UnparkPausesNothing(db: Db, tx: Tx, p: Id)
    requires !IsPaused(db, p) && tx.Unpark?
    ensures !IsPaused(ApplyProcess(db, tx), p)
  {
    hide ApplyProcess;
    Histories.OthersKeepProcesses(db, tx);
  }

  lemma DecisionPausesNothing(db: Db, q: Id, turn: Id, d: Decision, limits: Processes.Limits, p: Id)
    requires !IsPaused(db, p)
    ensures var r := Processes.Decided(db, q, turn, d, limits); r.Ok? ==> !IsPaused(r.value, p)
  {
    hide Processes.Decided, Processes.DecisionRefused, Processes.WakesFollow, Processes.Learned, Processes.HasRequest,
         Processes.IsBusy;
    Processes.DecisionAnswers(db, q, turn, d, limits);
  }
}
