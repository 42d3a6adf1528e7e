/** What no transaction ever takes back. */
module Evolution {
  import opened Contracts
  import opened Store
  import opened Protocol
  import opened Frames
  import opened CoreInvariant
  import Gateway
  import Reviews
  import Processes
  import Ingestion
  import Execution
  import Outbox

  /** Statuses a request never leaves. */
  predicate IsSettled(s: ActionStatus) {
    s in {Denied, Rejected, Superseded, Succeeded, Failed, Conflict}
  }

  ghost predicate ProcessesKeep(db: Db, after: Db) {
    forall p :: p in db.processes ==>
      && p in after.processes && SamePinning(db.processes[p], after.processes[p])
      && (IsTerminal(db.processes[p].status) ==> after.processes[p] == db.processes[p])
      && db.processes[p].history <= after.processes[p].history
  }

  ghost predicate WorkKeeps(db: Db, after: Db) {
    && (forall id :: id in db.actions ==>
          && id in after.actions && SameIdentity(db.actions[id], after.actions[id])
          && (IsSettled(db.actions[id].status) ==> after.actions[id].status == db.actions[id].status))
    && (forall k :: k in db.attempts ==>
          && k in after.attempts && after.attempts[k].adapter == db.attempts[k].adapter
          && (IsFinal(db.attempts[k].status) ==> after.attempts[k] == db.attempts[k]))
    && (forall c :: c in db.approvals ==> c in after.approvals && after.approvals[c] == db.approvals[c])
    && (forall s :: s in db.slots ==> s in after.slots && after.slots[s] == db.slots[s])
    && db.order <= after.order
  }

  ghost predicate MailKeeps(db: Db, after: Db) {
    && (forall r :: r in db.owners ==> r in after.owners && after.owners[r] == db.owners[r])
    && (forall s :: s in db.sources ==> s in after.sources && after.sources[s] == db.sources[s])
    && (forall e :: e in db.inbox ==>
          && e in after.inbox && after.inbox[e].event == db.inbox[e].event
          && (db.inbox[e].status.Matched? ==> after.inbox[e] == db.inbox[e]))
    && db.arrivals <= after.arrivals
    && (forall k :: k in db.outbox ==>
          k in after.outbox && after.outbox[k].process == db.outbox[k].process &&
          after.outbox[k].cause == db.outbox[k].cause &&
          (db.outbox[k].status.Published? ==> after.outbox[k] == db.outbox[k]))
  }

  ghost predicate Keeps(db: Db, after: Db) {
    ProcessesKeep(db, after) && WorkKeeps(db, after) && MailKeeps(db, after) && db.clock <= after.clock
  }

  // ------------------------------------------------------------- generic steps

  lemma SameWorkKeeps(db: Db, after: Db)
    requires WorkSame(db, after)
    ensures WorkKeeps(db, after)
  {}

  lemma SameProcessesKeep(db: Db, after: Db)
    requires after.processes == db.processes
    ensures ProcessesKeep(db, after)
  {}

  lemma EnqueueKeepsMail(db: Db, after: Db, key: Outbox.DedupKey, p: Id, cause: Option<Id>)
    requires MailSame(db, after) && after.outbox == Enqueued(db, key, p, cause)
    ensures MailKeeps(db, after)
  {}

  lemma SameMailKeeps(db: Db, after: Db)
    requires MailSame(db, after) && after.outbox == db.outbox
    ensures MailKeeps(db, after)
  {}

  lemma ActionKeepsWork(db: Db, after: Db, id: Id)
    requires OnlyAction(db, after, id) && !IsSettled(db.actions[id].status)
    requires var k := KeyOf(id, db.actions[id]); k in db.attempts ==> !IsFinal(db.attempts[k].status)
    ensures WorkKeeps(db, after)
  {}

  lemma SettledHasNoLiveAttempt(db: Db, id: Id)
    requires id in db.actions && ActionOk(db, id)
    ensures var k := KeyOf(id, db.actions[id]);
            (k in db.attempts && !IsFinal(db.attempts[k].status)) ==> !IsSettled(db.actions[id].status)
    ensures var k := KeyOf(id, db.actions[id]);
            Execution.PolicyRefusal(db, id, db.actions[id]).None? && k !in db.attempts ==>
              !IsSettled(db.actions[id].status)
  {}

  lemma BothKeepsWork(db: Db, id: Id, status: ActionStatus, attempt: Attempt)
    requires id in db.actions && ActionOk(db, id)
    requires var k := KeyOf(id, db.actions[id]);
             if k in db.attempts then !IsFinal(db.attempts[k].status) && attempt.adapter == db.attempts[k].adapter
             else Execution.PolicyRefusal(db, id, db.actions[id]).None?
    ensures var after := Execution.WithBoth(db, id, status, attempt);
            WorkKeeps(db, after) && ProcessesKeep(db, after) && MailKeeps(db, after)
  {
    hide ActionOk, WorkKeeps, ProcessesKeep, MailKeeps, Execution.PolicyRefusal;
    var after := Execution.WithBoth(db, id, status, attempt);
    SettledHasNoLiveAttempt(db, id);
    BothFrame(db, id, status, attempt);
    ActionKeepsWork(db, after, id);
    SameProcessesKeep(db, after);
    SameMailKeeps(db, after);
  }

  // -------------------------------------------------------- the transactions

  lemma ReviewEvolves(db: Db, c: Reviews.ReviewCommand)
    requires CoreInv(db)
    ensures var r := Reviews.AppliedReview(db, c); r.Ok? ==> Keeps(db, r.value)
  {
    hide ActionOk, AttemptOk, CompletionOk, WorkKeeps, ProcessesKeep, MailKeeps, Reviews.Recorded, OnlyAction;
    SameWorkKeeps(db, db);
    SameProcessesKeep(db, db);
    SameMailKeeps(db, db);
    var r := Reviews.AppliedReview(db, c);
    if r.Ok? && c.id !in db.reviews {
      assert c.id !in db.approvals;
      assert ActionOk(db, c.thread);
      AwaitingHasNoAttempt(db, c.thread);
      ReviewFrame(db, c);
      RecordedEvolves(db, c, r.value);
    }
  }

  lemma RecordedEvolves(db: Db, c: Reviews.ReviewCommand, after: Db)
    requires c.thread in db.actions && db.actions[c.thread].approval.Approval?
    requires OnlyAction(db, Reviews.Recorded(db, c), c.thread)
    requires KeyOf(c.thread, db.actions[c.thread]) !in db.attempts
    requires db.actions[c.thread].status.PendingApproval?
    requires after == Reviews.Recorded(db, c).(outbox := Enqueued(db, Outbox.ReviewKey(c.id), c.process, None))
    ensures Keeps(db, after)
  {
    hide WorkKeeps, ProcessesKeep, MailKeeps, Reviews.Recorded;
    assert OnlyAction(db, after, c.thread);
    ActionKeepsWork(db, after, c.thread);
    SameProcessesKeep(db, after);
    EnqueueKeepsMail(db, after, Outbox.ReviewKey(c.id), c.process, None);
  }

  lemma ResolveEvolves(db: Db, c: Reviews.ResolveCommand)
    requires CoreInv(db)
    ensures var r := Reviews.Resolved(db, c); r.Ok? ==> Keeps(db, r.value)
  {
    hide ActionOk, CompletionOk, WorkKeeps, ProcessesKeep, MailKeeps, Reviews.Settled, OnlyAction;
    SameWorkKeeps(db, db);
    SameProcessesKeep(db, db);
    SameMailKeeps(db, db);
    var r := Reviews.Resolved(db, c);
    if r.Ok? && c.attempt !in db.resolutions {
      assert AttemptOk(db, c.attempt);
      assert ActionOk(db, c.attempt.request);
      SettledHasNoLiveAttempt(db, c.attempt.request);
      ResolveFrame(db, c);
      SettledEvolves(db, c, r.value);
    }
  }

  lemma SettledEvolves(db: Db, c: Reviews.ResolveCommand, after: Db)
    requires c.attempt in db.attempts && c.attempt.request in db.actions
    requires c.attempt == KeyOf(c.attempt.request, db.actions[c.attempt.request])
    requires OnlyAction(db, Reviews.Settled(db, c), c.attempt.request)
    requires !IsFinal(db.attempts[c.attempt].status) && !IsSettled(db.actions[c.attempt.request].status)
    requires after == Reviews.Settled(db, c).(outbox := Enqueued(db, Outbox.ResolutionKey(c.id), c.process, None))
    ensures Keeps(db, after)
  {
    hide WorkKeeps, ProcessesKeep, MailKeeps, Reviews.Settled;
    assert OnlyAction(db, after, c.attempt.request);
    ActionKeepsWork(db, after, c.attempt.request);
    SameProcessesKeep(db, after);
    EnqueueKeepsMail(db, after, Outbox.ResolutionKey(c.id), c.process, None);
  }

  lemma NothingEvolves(db: Db)
    ensures Keeps(db, db)
  {}

  lemma ReserveEvolves(db: Db, release: Deployment, adapter: Id, p: Id, id: Id, revision: nat)
    requires CoreInv(db)
    ensures var r := Execution.Reserve(db, release, adapter, p, id, revision); r.Ok? ==> Keeps(db, r.value.0)
  {
    hide ActionOk, AttemptOk, CompletionOk, WorkKeeps, ProcessesKeep, MailKeeps, Execution.Reserve,
         Execution.PolicyRefusal;
    NothingEvolves(db);
    FinalReserveChangesNothing(db, release, adapter, p, id, revision);
    var r := Execution.Reserve(db, release, adapter, p, id, revision);
    if r.Ok? && !r.value.1.AlreadyFinal? {
      ReserveIsBoth(db, release, adapter, p, id, revision);
      assert ActionOk(db, id);
      var key := KeyOf(id, db.actions[id]);
      BothKeepsWork(db, id, Executing,
                    if key in db.attempts then db.attempts[key] else Attempt(adapter, Executing, Option.None));
    }
  }

  lemma ReconcileEvolves(db: Db, release: Deployment, p: Id, id: Id, revision: nat)
    requires CoreInv(db)
    ensures var r := Execution.StartReconcile(db, release, p, id, revision); r.Ok? ==> Keeps(db, r.value.0)
  {
    hide ActionOk, AttemptOk, CompletionOk, WorkKeeps, ProcessesKeep, MailKeeps, Execution.StartReconcile,
         Execution.PolicyRefusal;
    NothingEvolves(db);
    FinalReconcileChangesNothing(db, release, p, id, revision);
    var r := Execution.StartReconcile(db, release, p, id, revision);
    if r.Ok? && !r.value.1 {
      ReconcileIsBoth(db, release, p, id, revision);
      assert ActionOk(db, id);
      BothKeepsWork(db, id, Reconciling, db.attempts[KeyOf(id, db.actions[id])].(status := Reconciling));
    }
  }

  lemma RecordEvolves(db: Db, key: Key, status: ActionStatus, effect: Option<Effect>)
    requires CoreInv(db)
    ensures Keeps(db, Execution.Record(db, key, status, effect))
  {
    hide ActionOk, CompletionOk, WorkKeeps, ProcessesKeep, MailKeeps, Execution.WithBoth;
    NothingEvolves(db);
    if key in db.attempts && !IsFinal(db.attempts[key].status) {
      assert AttemptOk(db, key) && ActionOk(db, key.request);
      RecordIsBoth(db, key, status, effect);
      BothKeepsWork(db, key.request, status, db.attempts[key].(status := status, effect := effect));
    }
  }

  lemma InsertEvolves(db: Db, p: Id, turn: Id, proposal: Proposal, supersedes: Option<Id>)
    requires p in db.processes && proposal.requestId !in db.actions
    requires (p, turn, proposal.logicalKey) !in db.slots
    ensures Keeps(db, Gateway.Inserted(db, p, turn, proposal, supersedes))
  {
    hide MailKeeps, ProcessesKeep, WorkKeeps;
    var after := Gateway.Inserted(db, p, turn, proposal, supersedes);
    InsertKeepsWork(db, p, turn, proposal, supersedes);
    SameProcessesKeep(db, after);
    SameMailKeeps(db, after);
  }

  lemma InsertKeepsWork(db: Db, p: Id, turn: Id, proposal: Proposal, supersedes: Option<Id>)
    requires p in db.processes && proposal.requestId !in db.actions
    requires (p, turn, proposal.logicalKey) !in db.slots
    ensures WorkKeeps(db, Gateway.Inserted(db, p, turn, proposal, supersedes))
  {
    hide Gateway.NewAction;
  }

  lemma KeepsTrans(a: Db, b: Db, c: Db)
    requires Keeps(a, b) && Keeps(b, c)
    ensures Keeps(a, c)
  {
    hide MailKeeps, WorkKeeps, ProcessesKeep;
    ProcessesTrans(a, b, c);
    WorkTrans(a, b, c);
    MailTrans(a, b, c);
  }

  lemma ProcessesTrans(a: Db, b: Db, c: Db)
    requires ProcessesKeep(a, b) && ProcessesKeep(b, c)
    ensures ProcessesKeep(a, c)
  {}

  lemma WorkTrans(a: Db, b: Db, c: Db)
    requires WorkKeeps(a, b) && WorkKeeps(b, c)
    ensures WorkKeeps(a, c)
  {}

  lemma MailTrans(a: Db, b: Db, c: Db)
    requires MailKeeps(a, b) && MailKeeps(b, c)
    ensures MailKeeps(a, c)
  {}

  lemma {:induction false} PersistUpToEvolves(db: Db, p: Id, turn: Id, actions: seq<Proposal>, n: nat,
                                              targets: seq<Gateway.Target>, conflicted: set<Payload>,
                                              breakers: Gateway.Breakers)
    requires p in db.processes && n <= |actions|
    ensures var r := Gateway.PersistUpTo(db, p, turn, actions, n, targets, conflicted, breakers);
            r.Ok? ==> Keeps(db, r.value)
  {
    hide Keeps, Gateway.Inserted, Gateway.PersistOne;
    if n == 0 {
      NothingEvolves(db);
    } else {
      PersistUpToEvolves(db, p, turn, actions, n - 1, targets, conflicted, breakers);
      var before := Gateway.PersistUpTo(db, p, turn, actions, n - 1, targets, conflicted, breakers);
      var r := Gateway.PersistUpTo(db, p, turn, actions, n, targets, conflicted, breakers);
      if r.Ok? {
        var supersedes := Gateway.Assigned(targets, actions, n)[n - 1];
        Gateway.PersistOneInserts(before.value, p, turn, actions[n - 1], supersedes, conflicted, breakers);
        if (p, turn, actions[n - 1].logicalKey) !in before.value.slots {
          InsertEvolves(before.value, p, turn, actions[n - 1], supersedes);
          KeepsTrans(db, before.value, r.value);
        }
      }
    }
  }

  lemma PersistEvolves(db: Db, p: Id, turn: Id, d: Decision, breakers: Gateway.Breakers)
    ensures var r := Gateway.Persisted(db, p, turn, d, breakers); r.Ok? ==> Keeps(db, r.value)
  {
    hide Keeps, Gateway.PersistUpTo;
    if Gateway.Closed(db, p, breakers).None? {
      PersistUpToEvolves(db, p, turn, d.actions, |d.actions|, Gateway.RevisionTargets(db, p, d.reviewIds),
                         Gateway.ConflictedPayloads(db, p, d.attemptIds), breakers);
    }
  }

  lemma OpenProcessKeeps(db: Db, after: Db, p: Id)
    requires OnlyProcess(db, after, p) && db.processes[p].history <= after.processes[p].history
    requires IsTerminal(db.processes[p].status) ==> after.processes == db.processes
    ensures ProcessesKeep(db, after) && WorkKeeps(db, after)
  {}

  lemma DecideEvolves(db: Db, p: Id, turn: Id, d: Decision, limits: Processes.Limits)
    ensures var r := Processes.Decided(db, p, turn, d, limits); r.Ok? ==> Keeps(db, r.value)
  {
    hide Keeps, OnlyProcess;
    NothingEvolves(db);
    var r := Processes.Decided(db, p, turn, d, limits);
    if r.Ok? && r.value != db {
      DecideFrame(db, p, turn, d, limits);
      DecidedEvolves(db, r.value, p);
    }
  }

  lemma DecidedEvolves(db: Db, after: Db, p: Id)
    requires OnlyProcess(db, after, p) && MailSame(db, after) && after.outbox == db.outbox
    requires !IsTerminal(db.processes[p].status) || after.processes == db.processes
    requires db.processes[p].history <= after.processes[p].history
    ensures Keeps(db, after)
  {
    hide WorkKeeps, MailKeeps, ProcessesKeep;
    OpenProcessKeeps(db, after, p);
    SameMailKeeps(db, after);
  }

  lemma InterveneEvolves(db: Db, p: Id, turn: Id)
    ensures var r := Processes.Intervened(db, p, turn); r.Ok? ==> Keeps(db, r.value)
  {
    hide Keeps, OnlyProcess;
    NothingEvolves(db);
    var r := Processes.Intervened(db, p, turn);
    if r.Ok? && r.value != db {
      InterveneFrame(db, p, turn);
      InterventionEvolves(db, r.value, p);
    }
  }

  lemma InterventionEvolves(db: Db, after: Db, p: Id)
    requires OnlyProcess(db, after, p) && MailSame(db, after) && after.outbox == db.outbox
    requires db.processes[p].IsClosed() ==> after.processes == db.processes
    requires after.processes[p].history == db.processes[p].history
    ensures Keeps(db, after)
  {
    hide WorkKeeps, MailKeeps, ProcessesKeep;
    OpenProcessKeeps(db, after, p);
    SameMailKeeps(db, after);
  }

  // ------------------------------------------------------------------- mail

  /** A new inbox row, new bindings and at most one new delivery. */
  lemma ArrivalKeepsMail(db: Db, stored: Db, after: Db, row: InboxRow, key: Outbox.DedupKey, p: Id, cause: Option<Id>)
    requires row.event.id !in db.inbox && (row.event.source, row.event.sourceId) !in db.sources
    requires stored.inbox == db.inbox && stored.arrivals == db.arrivals && stored.sources == db.sources
    requires stored.outbox == db.outbox && stored.clock == db.clock
    requires forall r :: r in db.owners ==> r in stored.owners && stored.owners[r] == db.owners[r]
    requires after == Arrived(stored, row).(outbox := after.outbox)
    requires after.outbox == db.outbox || after.outbox == Enqueued(db, key, p, cause)
    ensures MailKeeps(db, after)
  {}

  lemma BoundKeepsOwners(owners: map<Reference, Id>, references: seq<Reference>, p: Id)
    requires Ingestion.Bound(owners, references, p).Some?
    ensures var after := Ingestion.Bound(owners, references, p).value;
            forall r :: r in owners ==> r in after && after[r] == owners[r]
  {}

  lemma CorrelatedKeepsOwners(db: Db, e: Event, m: Ingestion.Match, bootstrap: Option<Ingestion.Bootstrap>)
    requires m.status.Matched? ==> m.process.Some? && Ingestion.Bound(db.owners, e.references, m.process.value).Some?
    ensures var after := Ingestion.Correlated(db, e, m, bootstrap);
            forall r :: r in db.owners ==> r in after.owners && after.owners[r] == db.owners[r]
  {
    hide Ingestion.Bound, Ingestion.WithProcess;
    if m.status.Matched? { BoundKeepsOwners(db.owners, e.references, m.process.value); }
  }

  lemma AdmittedKeepsMail(db: Db, e: Event, bootstrap: Option<Ingestion.Bootstrap>, newId: Id)
    requires Ingestion.IngestRefusal(db, e, bootstrap, newId).None?
    requires (e.source, e.sourceId) !in db.sources
    ensures MailKeeps(db, Ingestion.Admitted(db, e, bootstrap, newId))
  {
    hide MailKeeps, Ingestion.Bound, Ingestion.FinalMatch, Ingestion.Correlated, Enqueued, Arrived;
    var m := Ingestion.FinalMatch(db, e, bootstrap, newId);
    var stored := Ingestion.Correlated(db, e, m, bootstrap);
    CorrelatedFrame(db, e, m, bootstrap);
    CorrelatedKeepsOwners(db, e, m, bootstrap);
    var row := Ingestion.RowFor(stored, e, m);
    EnqueueReadsOutbox(db, stored, Outbox.EventKey(e.id), if row.process.Some? then row.process.value else 0, Some(e.id));
    ArrivalKeepsMail(db, stored, Ingestion.Admitted(db, e, bootstrap, newId), row, Outbox.EventKey(e.id),
                     if row.process.Some? then row.process.value else 0, Some(e.id));
  }

  lemma IngestEvolves(db: Db, e: Event, bootstrap: Option<Ingestion.Bootstrap>, ingress: Option<Deployment>, newId: Id)
    ensures var r := Ingestion.Ingested(db, e, bootstrap, ingress, newId); r.Ok? ==> Keeps(db, r.value)
  {
    hide Ingestion.IngestRefusal, Ingestion.Admitted, Ingestion.FinalMatch, MailKeeps, WorkKeeps, ProcessesKeep;
    NothingEvolves(db);
    if Ingestion.IngestRefusal(db, e, bootstrap, newId).None? && (e.source, e.sourceId) !in db.sources {
      var after := Ingestion.Admitted(db, e, bootstrap, newId);
      IngestFrame(db, e, bootstrap, newId);
      AdmittedKeepsMail(db, e, bootstrap, newId);
      SameWorkKeeps(db, after);
      GrownProcessesKeep(db, after);
    }
  }

  lemma GrownProcessesKeep(db: Db, after: Db)
    requires forall p :: p in db.processes ==> p in after.processes && after.processes[p] == db.processes[p]
    ensures ProcessesKeep(db, after)
  {}

  lemma ReleasedKeepsMail(db: Db, c: Ingestion.ResolveQuarantine)
    requires Ingestion.QuarantineRefusal(db, c).None?
    ensures MailKeeps(db, Ingestion.Released(db, c))
  {
    hide Ingestion.Bound;
    BoundKeepsOwners(db.owners, c.references, c.process);
  }

  lemma UnparkEvolves(db: Db, c: Ingestion.ResolveQuarantine, ingress: Option<Deployment>)
    ensures var r := Ingestion.Unparked(db, c, ingress); r.Ok? ==> Keeps(db, r.value)
  {
    hide Ingestion.QuarantineRefusal, Ingestion.Released, MailKeeps, WorkKeeps, ProcessesKeep;
    NothingEvolves(db);
    if Ingestion.QuarantineRefusal(db, c).None? {
      var after := Ingestion.Released(db, c);
      UnparkFrame(db, c);
      ReleasedKeepsMail(db, c);
      SameWorkKeeps(db, after);
      SameProcessesKeep(db, after);
    }
  }

  lemma CarriedKeepsMail(db: Db, c: Processes.ControlCommand, eventId: Id)
    requires Processes.ControlRefusal(db, c, eventId).None?
    requires c.process in db.processes && (c.kind.Retry? ==> c.intervention.Some?)
    ensures MailKeeps(db, Processes.Carried(db, c, eventId))
  {
    hide MailKeeps, Processes.ControlRefusal, Processes.Obeyed, Arrived, Enqueued, Processes.Digits;
    ControlTargets(db, c, eventId);
    ObeyedFrame(db, c, eventId);
    var stored, after := Processes.Obeyed(db, c), Processes.Carried(db, c, eventId);
    var key := Outbox.ControlKey(c.id);
    if c.kind.WakeNow? || c.kind.Resume? {
      EnqueueReadsOutbox(db, stored, key, c.process, Some(eventId));
      var row := InboxRow(Processes.WakeEvent(c, eventId, db.clock), Some(c.process), Matched, OperatorWake);
      ArrivalKeepsMail(db, stored, after, row, key, c.process, Some(eventId));
    } else {
      EnqueueKeepsMail(db, after, key, c.process, None);
    }
  }

  lemma ControlEvolves(db: Db, c: Processes.ControlCommand, eventId: Id)
    ensures var r := Processes.Commanded(db, c, eventId); r.Ok? ==> Keeps(db, r.value)
  {
    hide Processes.ControlRefusal, Processes.Carried, MailKeeps, WorkKeeps, ProcessesKeep;
    NothingEvolves(db);
    if Processes.ControlRefusal(db, c, eventId).None? {
      ControlFrame(db, c, eventId);
      CarriedKeepsMail(db, c, eventId);
      OpenProcessKeeps(db, Processes.Carried(db, c, eventId), c.process);
    }
  }

  // -------------------------------------------------------------- everything

  lemma TenantEvolves(db: Db, clock: int, active: bool, deployment: Deployment,
                      outbox: map<Outbox.DedupKey, Outbox.Message>)
    requires RowsEvolve(db.outbox, outbox) && db.clock <= clock
    ensures Keeps(db, db.(clock := clock, active := active, deployment := deployment, outbox := outbox))
  {
    hide WorkKeeps, ProcessesKeep;
    var after := db.(clock := clock, active := active, deployment := deployment, outbox := outbox);
    SameWorkKeeps(db, after);
    SameProcessesKeep(db, after);
  }

  lemma TenantTxEvolves(db: Db, tx: Tx)
    requires OfTenant(tx)
    ensures Keeps(db, ApplyTenant(db, tx))
  {
    hide Ingestion.HasActiveProcess, Ingestion.HasOutstanding, Keeps;
    NothingEvolves(db);
    match tx {
      case Tick(seconds) => TenantEvolves(db, db.clock + seconds, db.active, db.deployment, db.outbox);
      case SetActive(flag) => TenantEvolves(db, db.clock, flag, db.deployment, db.outbox);
      case Assign(target, _) => TenantEvolves(db, db.clock, db.active, target, db.outbox);
      case Dispatch(rows) =>
        if RowsEvolve(db.outbox, rows) { TenantEvolves(db, db.clock, db.active, db.deployment, rows); }
    }
  }

  lemma ActionTxEvolves(db: Db, tx: Tx)
    requires CoreInv(db)
    requires OfAction(tx)
    ensures Keeps(db, ApplyAction(db, tx))
  {
    hide CoreInv, Keeps, Execution.Reserve, Execution.Record, Execution.StartReconcile, Reviews.AppliedReview,
         Reviews.Resolved;
    NothingEvolves(db);
    match tx {
      case ReviewTx(c) => ReviewEvolves(db, c);
      case Resolve(c) => ResolveEvolves(db, c);
      case Reserve(release, adapter, p, id, revision) => ReserveEvolves(db, release, adapter, p, id, revision);
      case Record(key, status, effect) => RecordEvolves(db, key, status, effect);
      case Reconcile(release, p, id, revision) => ReconcileEvolves(db, release, p, id, revision);
    }
  }

  lemma ProcessTxEvolves(db: Db, tx: Tx)
    requires !OfTenant(tx) && !OfAction(tx)
    ensures Keeps(db, ApplyProcess(db, tx))
  {
    hide Keeps, Ingestion.Ingested, Ingestion.Unparked, Gateway.Persisted, Processes.Decided,
         Processes.Intervened, Processes.Commanded;
    NothingEvolves(db);
    match tx {
      case Ingest(e, bootstrap, ingress, newId) => IngestEvolves(db, e, bootstrap, ingress, newId);
      case Unpark(c, ingress) => UnparkEvolves(db, c, ingress);
      case Persist(p, turn, d, breakers) => PersistEvolves(db, p, turn, d, breakers);
      case Decide(p, turn, d, limits) => DecideEvolves(db, p, turn, d, limits);
      case Intervene(p, turn) => InterveneEvolves(db, p, turn);
      case ControlTx(c, eventId) => ControlEvolves(db, c, eventId);
    }
  }

  lemma ApplyEvolves(db: Db, tx: Tx)
    requires CoreInv(db)
    ensures Keeps(db, Apply(db, tx))
  {
    hide CoreInv, ApplyTenant, ApplyAction, ApplyProcess, Keeps;
    if OfAction(tx) {
      ActionTxEvolves(db, tx);
    } else if OfTenant(tx) {
      TenantTxEvolves(db, tx);
    } else {
      ProcessTxEvolves(db, tx);
    }
  }

  /** Over every run: owners, source identities, matched events, terminal processes, final
      attempts, settled requests, grants and published messages stay what they are, and
      histories, arrivals and requests only grow. */
  lemma {:induction false} RunEvolves(db: Db, txs: seq<Tx>)
    requires CoreInv(db) && forall i :: 0 <= i < |txs| ==> Sound(txs[i])
    ensures Keeps(db, Run(db, txs))
  {
    hide CoreInv, Apply, Keeps;
    if txs == [] {
      NothingEvolves(db);
    } else {
      var before := Run(db, txs[..|txs| - 1]);
      RunEvolves(db, txs[..|txs| - 1]);
      RunKeepsCore(db, txs[..|txs| - 1]);
      ApplyEvolves(before, txs[|txs| - 1]);
      KeepsTrans(db, before, Apply(before, txs[|txs| - 1]));
    }
  }
}
