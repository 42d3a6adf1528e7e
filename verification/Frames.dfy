/** What each transaction may touch, so that invariants need not reopen its definition. */
module Frames {
  import opened Contracts
  import opened Store
  import Gateway
  import Reviews
  import Processes
  import Ingestion
  import Execution
  import Outbox

  predicate WorkSame(db: Db, after: Db) {
    && after.actions == db.actions && after.order == db.order && after.slots == db.slots
    && after.attempts == db.attempts && after.approvals == db.approvals && after.reviews == db.reviews
    && after.resolutions == db.resolutions
  }

  predicate MailSame(db: Db, after: Db) {
    && after.inbox == db.inbox && after.arrivals == db.arrivals && after.sources == db.sources
    && after.owners == db.owners && after.commands == db.commands
  }

  predicate TenantSame(db: Db, after: Db) {
    after.clock == db.clock && after.active == db.active && after.deployment == db.deployment
  }

  predicate SameIdentity(a: Action, b: Action) {
    b == a.(status := b.status, approval := b.approval)
  }

  /** One request changes status, and with it at most its attempt; grants are only added. */
  ghost predicate OnlyAction(db: Db, after: Db, id: Id) {
    && id in db.actions && id in after.actions
    && after.processes == db.processes && after.order == db.order && after.slots == db.slots
    && after.actions == db.actions[id := after.actions[id]]
    && SameIdentity(db.actions[id], after.actions[id])
    && (forall k :: k in after.attempts && k != KeyOf(id, db.actions[id]) ==>
          k in db.attempts && after.attempts[k] == db.attempts[k])
    && (forall k :: k in db.attempts ==> k in after.attempts && after.attempts[k].adapter == db.attempts[k].adapter)
    && (forall c :: c in db.approvals ==> c in after.approvals && after.approvals[c] == db.approvals[c])
    && MailSame(db, after) && TenantSame(db, after)
  }

  /** One process changes, keeping what it is pinned to. */
  ghost predicate OnlyProcess(db: Db, after: Db, p: Id) {
    && p in db.processes && p in after.processes
    && after.processes == db.processes[p := after.processes[p]]
    && SamePinning(db.processes[p], after.processes[p])
    && WorkSame(db, after) && TenantSame(db, after)
  }

  predicate SamePinning(a: Process, b: Process) {
    b.definition == a.definition && b.deployment == a.deployment && b.createdAt == a.createdAt &&
    b.recordOnly == a.recordOnly
  }

  // ------------------------------------------------------- one lemma a service

  lemma ReviewFrame(db: Db, c: Reviews.ReviewCommand)
    requires Reviews.TargetError(db, c).None? && c.id !in db.reviews && Reviews.PendingError(db, c).None?
    requires c.id !in db.approvals
    ensures OnlyAction(db, Reviews.Recorded(db, c), c.thread)
    ensures Reviews.Recorded(db, c).attempts == db.attempts
  {}

  lemma ResolveFrame(db: Db, c: Reviews.ResolveCommand)
    requires c.attempt in db.attempts && c.attempt.request in db.actions
    requires c.attempt == KeyOf(c.attempt.request, db.actions[c.attempt.request])
    ensures OnlyAction(db, Reviews.Settled(db, c), c.attempt.request)
  {}

  lemma BothFrame(db: Db, id: Id, status: ActionStatus, attempt: Attempt)
    requires id in db.actions
    requires KeyOf(id, db.actions[id]) in db.attempts ==>
               attempt.adapter == db.attempts[KeyOf(id, db.actions[id])].adapter
    ensures OnlyAction(db, Execution.WithBoth(db, id, status, attempt), id)
  {}

  lemma ReserveIsBoth(db: Db, release: Deployment, adapter: Id, p: Id, id: Id, revision: nat)
    requires var r := Execution.Reserve(db, release, adapter, p, id, revision);
             r.Ok? && !r.value.1.AlreadyFinal?
    ensures id in db.actions && db.actions[id].process == p && p in db.processes && !db.processes[p].IsClosed()
    ensures Execution.PolicyRefusal(db, id, db.actions[id]).None?
    ensures var key := KeyOf(id, db.actions[id]);
            var attempt := if key in db.attempts then db.attempts[key] else Attempt(adapter, Executing, Option.None);
            Execution.Reserve(db, release, adapter, p, id, revision).value.0 ==
              Execution.WithBoth(db, id, Executing, attempt) &&
            !IsFinal(attempt.status) && attempt.adapter == adapter
  {
    hide Execution.Refusal, Execution.PolicyRefusal;
    Found(db, release, p, id, revision, true);
    var key := KeyOf(id, db.actions[id]);
    if key in db.attempts {
      assert db.attempts[key := db.attempts[key]] == db.attempts;
    }
  }

  lemma ReconcileIsBoth(db: Db, release: Deployment, p: Id, id: Id, revision: nat)
    requires var r := Execution.StartReconcile(db, release, p, id, revision);
             r.Ok? && !r.value.1
    ensures id in db.actions && db.actions[id].process == p && p in db.processes && !db.processes[p].IsClosed()
    ensures Execution.PolicyRefusal(db, id, db.actions[id]).None?
    ensures var key := KeyOf(id, db.actions[id]);
            key in db.attempts && !IsFinal(db.attempts[key].status) &&
            Execution.StartReconcile(db, release, p, id, revision).value.0 ==
              Execution.WithBoth(db, id, Reconciling, db.attempts[key].(status := Reconciling))
  {
    hide Execution.Refusal, Execution.PolicyRefusal;
    Found(db, release, p, id, revision, false);
  }

  lemma RecordIsBoth(db: Db, key: Key, status: ActionStatus, effect: Option<Effect>)
    requires key in db.attempts && key.request in db.actions && key == KeyOf(key.request, db.actions[key.request])
    requires !IsFinal(db.attempts[key].status)
    ensures Execution.Record(db, key, status, effect) ==
            Execution.WithBoth(db, key.request, status, db.attempts[key].(status := status, effect := effect))
  {}

  /** Execution transactions write attempts and requests only. */
  predicate OnlyExecution(db: Db, after: Db) {
    after == db.(attempts := after.attempts, actions := after.actions)
  }

  lemma ReserveTouches(db: Db, release: Deployment, adapter: Id, p: Id, id: Id, revision: nat)
    ensures var r := Execution.Reserve(db, release, adapter, p, id, revision); r.Ok? ==> OnlyExecution(db, r.value.0)
  {
    hide Execution.Refusal;
  }

  lemma ReconcileTouches(db: Db, release: Deployment, p: Id, id: Id, revision: nat)
    ensures var r := Execution.StartReconcile(db, release, p, id, revision); r.Ok? ==> OnlyExecution(db, r.value.0)
  {
    hide Execution.Refusal;
  }

  lemma RecordTouches(db: Db, key: Key, status: ActionStatus, effect: Option<Effect>)
    ensures OnlyExecution(db, Execution.Record(db, key, status, effect))
  {}

  lemma Found(db: Db, release: Deployment, p: Id, id: Id, revision: nat, needActive: bool)
    requires Execution.Refusal(db, release, p, id, revision, needActive).None?
    ensures id in db.actions && p in db.processes && db.actions[id].process == p && !db.processes[p].IsClosed()
    ensures Execution.PolicyRefusal(db, id, db.actions[id]).None?
  {}

  lemma DecideFrame(db: Db, p: Id, turn: Id, d: Decision, limits: Processes.Limits)
    requires var r := Processes.Decided(db, p, turn, d, limits); r.Ok? && r.value != db
    ensures var after := Processes.Decided(db, p, turn, d, limits).value;
            && OnlyProcess(db, after, p) && MailSame(db, after) && after.outbox == db.outbox
            && after == db.(processes := after.processes)
            && !db.processes[p].IsClosed()
  {}

  lemma InterveneFrame(db: Db, p: Id, turn: Id)
    requires var r := Processes.Intervened(db, p, turn); r.Ok? && r.value != db
    ensures var after := Processes.Intervened(db, p, turn).value;
            && OnlyProcess(db, after, p) && MailSame(db, after) && after.outbox == db.outbox
            && (db.processes[p].IsClosed() ==> after.processes == db.processes)
            && after.processes[p].history == db.processes[p].history
            && after.processes[p].facts == db.processes[p].facts
            && (after.processes[p].status == db.processes[p].status || after.processes[p].status.Review?)
  {}

  lemma ObeyedFrame(db: Db, c: Processes.ControlCommand, eventId: Id)
    requires Processes.ControlRefusal(db, c, eventId).None?
    ensures var after := Processes.Obeyed(db, c);
            && OnlyProcess(db, after, c.process) && MailSame(db, after) && after.outbox == db.outbox
            && after.processes[c.process].history == db.processes[c.process].history
            && after.processes[c.process].facts == db.processes[c.process].facts
            && !IsTerminal(db.processes[c.process].status) && !IsTerminal(after.processes[c.process].status)
  {
    hide Processes.WakeClashes;
  }

  lemma WokenFrame(db: Db, c: Processes.ControlCommand, eventId: Id)
    ensures var after := Processes.Woken(db, c, eventId);
            after.processes == db.processes && WorkSame(db, after) && TenantSame(db, after)
  {
    hide Processes.WakeEvent, Enqueued;
  }

  lemma ControlTargets(db: Db, c: Processes.ControlCommand, eventId: Id)
    requires Processes.ControlRefusal(db, c, eventId).None?
    ensures c.process in db.processes && (c.kind.Retry? ==> c.intervention.Some?)
    ensures c.kind.WakeNow? || c.kind.Resume? ==> !Processes.WakeClashes(db, c.id, eventId)
  {
    hide Processes.WakeClashes;
  }

  lemma ControlFrame(db: Db, c: Processes.ControlCommand, eventId: Id)
    requires Processes.ControlRefusal(db, c, eventId).None?
    ensures c.process in db.processes && (c.kind.Retry? ==> c.intervention.Some?)
    ensures var after := Processes.Carried(db, c, eventId);
            && OnlyProcess(db, after, c.process)
            && after.processes[c.process].history == db.processes[c.process].history
            && after.processes[c.process].facts == db.processes[c.process].facts
            && !IsTerminal(db.processes[c.process].status) && !IsTerminal(after.processes[c.process].status)
  {
    hide Processes.ControlRefusal, Processes.Obeyed, Processes.Woken, Enqueued;
    ControlTargets(db, c, eventId);
    ObeyedFrame(db, c, eventId);
    WokenFrame(Processes.Obeyed(db, c), c, eventId);
  }

  lemma MatchShape(db: Db, e: Event, bootstrap: Option<Ingestion.Bootstrap>, newId: Id)
    ensures var m := Ingestion.FinalMatch(db, e, bootstrap, newId);
            && (m.status.Matched? <==> m.process.Some?)
            && (m.reason.CreatedFromTrigger? ==>
                  m == Ingestion.Match(Some(newId), Matched, CreatedFromTrigger) && bootstrap.Some? &&
                  Ingestion.ResolveProcess(db, e).reason.NoMatch?)
            && !m.reason.TerminalRecordOnly? && !m.reason.OperatorWake? && !m.reason.OperatorResolution?
  {}

  /** An accepted match can bind every reference of its event. */
  lemma MatchIsBound(db: Db, e: Event, bootstrap: Option<Ingestion.Bootstrap>, newId: Id)
    requires Ingestion.IngestRefusal(db, e, bootstrap, newId).None?
    ensures var m := Ingestion.FinalMatch(db, e, bootstrap, newId);
            m.status.Matched? ==> m.process.Some? && Ingestion.Bound(db.owners, e.references, m.process.value).Some?
  {
    hide Ingestion.FinalMatch, Ingestion.Bound;
  }

  lemma EnqueueReadsOutbox(db: Db, stored: Db, key: Outbox.DedupKey, p: Id, cause: Option<Id>)
    requires stored.outbox == db.outbox && stored.clock == db.clock
    ensures Enqueued(stored, key, p, cause) == Enqueued(db, key, p, cause)
  {}

  lemma CorrelatedFrame(db: Db, e: Event, m: Ingestion.Match, bootstrap: Option<Ingestion.Bootstrap>)
    requires m.status.Matched? ==> m.process.Some? && Ingestion.Bound(db.owners, e.references, m.process.value).Some?
    ensures var after := Ingestion.Correlated(db, e, m, bootstrap);
            && WorkSame(db, after) && TenantSame(db, after) && after.outbox == db.outbox
            && after.inbox == db.inbox && after.arrivals == db.arrivals && after.sources == db.sources
            && after.processes == Ingestion.WithProcess(db, m, bootstrap).processes
  {
    hide Ingestion.Bound, Ingestion.WithProcess;
    WithProcessFrame(db, m, bootstrap);
  }

  lemma WithProcessFrame(db: Db, m: Ingestion.Match, bootstrap: Option<Ingestion.Bootstrap>)
    ensures Ingestion.WithProcess(db, m, bootstrap) ==
            db.(processes := Ingestion.WithProcess(db, m, bootstrap).processes)
  {
    hide Ingestion.NewProcess;
  }

  /** Only a trigger adds a process; nothing else about processes changes. */
  lemma IngestFrame(db: Db, e: Event, bootstrap: Option<Ingestion.Bootstrap>, newId: Id)
    requires Ingestion.IngestRefusal(db, e, bootstrap, newId).None?
    ensures var after := Ingestion.Admitted(db, e, bootstrap, newId);
            var m := Ingestion.FinalMatch(db, e, bootstrap, newId);
            && WorkSame(db, after) && TenantSame(db, after)
            && (if m.reason.CreatedFromTrigger?
                then newId !in db.processes && bootstrap.Some? &&
                     after.processes == db.processes[newId := Ingestion.NewProcess(bootstrap.value, db.clock)]
                else after.processes == db.processes)
  {
    hide Ingestion.Bound, Ingestion.RowFor, Ingestion.Scheduled, Ingestion.FinalMatch, Ingestion.Correlated;
    MatchShape(db, e, bootstrap, newId);
    CorrelatedFrame(db, e, Ingestion.FinalMatch(db, e, bootstrap, newId), bootstrap);
  }

  lemma UnparkFrame(db: Db, c: Ingestion.ResolveQuarantine)
    requires Ingestion.QuarantineRefusal(db, c).None?
    ensures var after := Ingestion.Released(db, c);
            WorkSame(db, after) && TenantSame(db, after) && after.processes == db.processes &&
            after.arrivals == db.arrivals && after.sources == db.sources
  {
    hide Ingestion.Bound, Enqueued;
  }

  lemma BothFindsRow(db: Db, id: Id, status: ActionStatus, attempt: Attempt)
    requires id in db.actions
    ensures var after := Execution.WithBoth(db, id, status, attempt);
            id in after.actions && KeyOf(id, after.actions[id]) == KeyOf(id, db.actions[id])
  {}

  lemma FinalReserveFinds(db: Db, release: Deployment, adapter: Id, p: Id, id: Id, revision: nat)
    requires Execution.Reserve(db, release, adapter, p, id, revision).Ok?
    ensures id in db.actions
    ensures var r := Execution.Reserve(db, release, adapter, p, id, revision).value;
            r.1.AlreadyFinal? ==> r.0 == db && KeyOf(id, db.actions[id]) in db.attempts
  {
    hide Execution.Refusal;
    Found(db, release, p, id, revision, true);
  }

  /** A reservation leaves the request under its key, with the attempt if that is final. */
  lemma ReserveFindsRow(db: Db, release: Deployment, adapter: Id, p: Id, id: Id, revision: nat)
    requires Execution.Reserve(db, release, adapter, p, id, revision).Ok?
    ensures id in db.actions
    ensures var (after, kind) := Execution.Reserve(db, release, adapter, p, id, revision).value;
            && id in after.actions && KeyOf(id, after.actions[id]) == KeyOf(id, db.actions[id])
            && (kind.AlreadyFinal? ==> after == db && KeyOf(id, db.actions[id]) in db.attempts)
  {
    hide Execution.Reserve, Execution.WithBoth, Execution.PolicyRefusal;
    FinalReserveFinds(db, release, adapter, p, id, revision);
    if !Execution.Reserve(db, release, adapter, p, id, revision).value.1.AlreadyFinal? {
      ReserveIsBoth(db, release, adapter, p, id, revision);
      var key := KeyOf(id, db.actions[id]);
      BothFindsRow(db, id, Executing,
                   if key in db.attempts then db.attempts[key] else Attempt(adapter, Executing, Option.None));
    }
  }

  lemma FinalReconcileFinds(db: Db, release: Deployment, p: Id, id: Id, revision: nat)
    requires Execution.StartReconcile(db, release, p, id, revision).Ok?
    ensures id in db.actions
    ensures var r := Execution.StartReconcile(db, release, p, id, revision).value;
            r.1 ==> r.0 == db && KeyOf(id, db.actions[id]) in db.attempts
  {
    hide Execution.Refusal;
    Found(db, release, p, id, revision, false);
  }

  lemma ReconcileFindsRow(db: Db, release: Deployment, p: Id, id: Id, revision: nat)
    requires Execution.StartReconcile(db, release, p, id, revision).Ok?
    ensures id in db.actions
    ensures var (after, final) := Execution.StartReconcile(db, release, p, id, revision).value;
            && id in after.actions && KeyOf(id, after.actions[id]) == KeyOf(id, db.actions[id])
            && (final ==> after == db && KeyOf(id, db.actions[id]) in db.attempts)
  {
    hide Execution.StartReconcile, Execution.WithBoth, Execution.PolicyRefusal;
    FinalReconcileFinds(db, release, p, id, revision);
    if !Execution.StartReconcile(db, release, p, id, revision).value.1 {
      ReconcileIsBoth(db, release, p, id, revision);
      BothFindsRow(db, id, Reconciling, db.attempts[KeyOf(id, db.actions[id])].(status := Reconciling));
    }
  }
}
