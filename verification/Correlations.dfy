/** Event identities, reference ownership and exactly-once scheduling of deliveries. */
module Correlations {
  import opened Contracts
  import opened Store
  import opened Protocol
  import opened Frames
  import opened Footprints
  import opened CoreInvariant
  import Evolution
  import Gateway
  import Reviews
  import Processes
  import Ingestion
  import Execution
  import Outbox

  // -------------------------------------------------------------- invariant

  /** Event and source identities name each other. */
  ghost predicate IdentitiesOk(db: Db) {
    && (forall e :: e in db.inbox ==>
          var event := db.inbox[e].event;
          event.id == e && (event.source, event.sourceId) in db.sources &&
          db.sources[(event.source, event.sourceId)] == e)
    && (forall s :: s in db.sources ==>
          db.sources[s] in db.inbox &&
          (db.inbox[db.sources[s]].event.source, db.inbox[db.sources[s]].event.sourceId) == s)
  }

  ghost predicate RowsOk(db: Db) {
    && (forall e :: e in db.inbox ==>
          (db.inbox[e].status.Matched? <==> db.inbox[e].process.Some?) &&
          (db.inbox[e].process.Some? ==> db.inbox[e].process.value in db.processes))
    && (forall r :: r in db.owners ==> db.owners[r] in db.processes)
    && (forall k :: k in db.outbox ==> db.outbox[k].process in db.processes)
  }

  ghost predicate HasDelivery(db: Db, e: Id, p: Id) {
    exists k :: k in db.outbox && db.outbox[k].cause == Some(e) && db.outbox[k].process == p
  }

  /** Deliveries caused by events and the rows that ask for them correspond. */
  ghost predicate DeliveriesOk(db: Db) {
    AllScheduled(db) && AllAskedFor(db)
  }

  ghost predicate AllScheduled(db: Db) {
    forall e :: e in db.inbox && Ingestion.Delivers(db.inbox[e]) ==>
      HasDelivery(db, e, db.inbox[e].process.value)
  }

  ghost predicate AllAskedFor(db: Db) {
    && (forall k :: k in db.outbox && db.outbox[k].cause.Some? ==>
          var e := db.outbox[k].cause.value;
          e in db.inbox && Ingestion.Delivers(db.inbox[e]) && db.inbox[e].process == Some(db.outbox[k].process))
    && (forall j, k | j in db.outbox && k in db.outbox && db.outbox[j].cause.Some? ::
          db.outbox[j].cause == db.outbox[k].cause ==> j == k)
    && (forall k :: k in db.outbox && k.EventKey? ==> db.outbox[k].cause == Some(k.event))
    && (forall k :: k in db.outbox && k.ControlKey? ==> k.command in db.controls)
  }

  ghost predicate MailInv(db: Db) {
    IdentitiesOk(db) && RowsOk(db) && DeliveriesOk(db)
  }

  // ----------------------------------------------------------- quiet steps

  /** Nothing about events changes; processes and controls only grow. */
  ghost predicate QuietMail(db: Db, after: Db) {
    && MailSame(db, after)
    && db.processes.Keys <= after.processes.Keys && db.controls.Keys <= after.controls.Keys
  }

  lemma EnqueueKeepsDeliveries(db: Db, after: Db, key: Outbox.DedupKey, p: Id)
    requires DeliveriesOk(db) && after.inbox == db.inbox && db.controls.Keys <= after.controls.Keys
    requires !key.EventKey? && (key.ControlKey? ==> key.command in after.controls)
    requires after.outbox == Enqueued(db, key, p, None)
    ensures DeliveriesOk(after)
  {
    forall e | e in after.inbox && Ingestion.Delivers(after.inbox[e])
      ensures HasDelivery(after, e, after.inbox[e].process.value)
    {
      DeliveryStays(db, after, e, db.inbox[e].process.value);
    }
  }

  lemma DeliveryStays(db: Db, after: Db, e: Id, p: Id)
    requires HasDelivery(db, e, p)
    requires forall k :: k in db.outbox ==>
               k in after.outbox && after.outbox[k].cause == db.outbox[k].cause &&
               after.outbox[k].process == db.outbox[k].process
    ensures HasDelivery(after, e, p)
  {
    var k :| k in db.outbox && db.outbox[k].cause == Some(e) && db.outbox[k].process == p;
    assert k in after.outbox;
  }

  lemma EnqueueKeepsMailInv(db: Db, after: Db, key: Outbox.DedupKey, p: Id)
    requires MailInv(db) && QuietMail(db, after) && p in after.processes
    requires !key.EventKey? && (key.ControlKey? ==> key.command in after.controls)
    requires after.outbox == Enqueued(db, key, p, None)
    ensures MailInv(after)
  {
    hide DeliveriesOk;
    EnqueueKeepsDeliveries(db, after, key, p);
  }

  lemma SameOutboxKeepsMailInv(db: Db, after: Db)
    requires MailInv(db) && QuietMail(db, after) && after.outbox == db.outbox
    ensures MailInv(after)
  {
    RowsEvolveKeepMailInv(db, after);
  }

  lemma RowsEvolveKeepDeliveries(db: Db, after: Db)
    requires DeliveriesOk(db) && after.inbox == db.inbox && db.controls.Keys <= after.controls.Keys
    requires RowsEvolve(db.outbox, after.outbox)
    ensures DeliveriesOk(after)
  {
    forall e | e in after.inbox && Ingestion.Delivers(after.inbox[e])
      ensures HasDelivery(after, e, after.inbox[e].process.value)
    {
      DeliveryStays(db, after, e, db.inbox[e].process.value);
    }
  }

  lemma RowsEvolveKeepMailInv(db: Db, after: Db)
    requires MailInv(db) && QuietMail(db, after) && RowsEvolve(db.outbox, after.outbox)
    ensures MailInv(after)
  {
    hide DeliveriesOk;
    RowsEvolveKeepDeliveries(db, after);
  }

  // -------------------------------------------------------------- new rows

  /** A new row and, exactly when it delivers, a new delivery caused by it. */
  ghost predicate RowArrives(db: Db, after: Db, row: InboxRow, key: Outbox.DedupKey) {
    var e := row.event.id;
    && e !in db.inbox && (row.event.source, row.event.sourceId) !in db.sources
    && after.inbox == db.inbox[e := row]
    && after.sources == db.sources[(row.event.source, row.event.sourceId) := e]
    && (row.status.Matched? <==> row.process.Some?)
    && (row.process.Some? ==> row.process.value in after.processes)
    && key !in db.outbox
    && (key.EventKey? ==> key.event == e) && (key.ControlKey? ==> key.command in after.controls)
    && db.processes.Keys <= after.processes.Keys && db.controls.Keys <= after.controls.Keys
    && (forall r :: r in after.owners ==> after.owners[r] in after.processes)
    && after.outbox == (if Ingestion.Delivers(row)
                        then db.outbox[key := Outbox.Fresh(row.process.value, Some(e), db.clock)] else db.outbox)
  }

  lemma ArrivalKeepsIdentities(db: Db, after: Db, row: InboxRow, key: Outbox.DedupKey)
    requires IdentitiesOk(db) && RowArrives(db, after, row, key)
    ensures IdentitiesOk(after)
  {}

  lemma ArrivalKeepsScheduled(db: Db, after: Db, row: InboxRow, key: Outbox.DedupKey)
    requires AllScheduled(db) && RowArrives(db, after, row, key)
    ensures AllScheduled(after)
  {
    var id := row.event.id;
    forall e | e in after.inbox && Ingestion.Delivers(after.inbox[e])
      ensures HasDelivery(after, e, after.inbox[e].process.value)
    {
      if e == id {
        assert key in after.outbox && after.outbox[key].cause == Some(id);
      } else {
        DeliveryStays(db, after, e, db.inbox[e].process.value);
      }
    }
  }

  lemma ArrivalKeepsDeliveries(db: Db, after: Db, row: InboxRow, key: Outbox.DedupKey)
    requires DeliveriesOk(db) && RowArrives(db, after, row, key)
    ensures DeliveriesOk(after)
  {
    hide AllScheduled;
    ArrivalKeepsScheduled(db, after, row, key);
  }

  lemma ArrivalKeepsMailInv(db: Db, after: Db, row: InboxRow, key: Outbox.DedupKey)
    requires MailInv(db) && RowArrives(db, after, row, key)
    ensures MailInv(after)
  {
    hide IdentitiesOk, DeliveriesOk;
    ArrivalKeepsIdentities(db, after, row, key);
    ArrivalKeepsDeliveries(db, after, row, key);
  }

  /** The key of a row that is not delivered yet is free. */
  lemma EventKeyIsFree(db: Db, e: Id)
    requires DeliveriesOk(db) && (e in db.inbox ==> !Ingestion.Delivers(db.inbox[e]))
    ensures Outbox.EventKey(e) !in db.outbox
  {}

  lemma BoundOwnersExist(db: Db, references: seq<Reference>, p: Id, after: Db)
    requires Ingestion.Bound(db.owners, references, p).Some?
    requires forall r :: r in db.owners ==> db.owners[r] in db.processes
    requires after.owners == Ingestion.Bound(db.owners, references, p).value
    requires db.processes.Keys <= after.processes.Keys && p in after.processes
    ensures forall r :: r in after.owners ==> after.owners[r] in after.processes
  {}

  lemma AdmittedOwnersExist(db: Db, e: Event, bootstrap: Option<Ingestion.Bootstrap>, newId: Id)
    requires RowsOk(db) && Ingestion.IngestRefusal(db, e, bootstrap, newId).None?
    ensures var after := Ingestion.Admitted(db, e, bootstrap, newId);
            var m := Ingestion.FinalMatch(db, e, bootstrap, newId);
            && (forall r :: r in after.owners ==> after.owners[r] in after.processes)
            && (m.process.Some? ==> m.process.value in after.processes)
            && db.processes.Keys <= after.processes.Keys
  {
    hide Ingestion.Bound, Ingestion.FinalMatch, Ingestion.NewProcess, Ingestion.RowFor, Ingestion.Scheduled;
    var m := Ingestion.FinalMatch(db, e, bootstrap, newId);
    var after := Ingestion.Admitted(db, e, bootstrap, newId);
    MatchShape(db, e, bootstrap, newId);
    IngestFrame(db, e, bootstrap, newId);
    if m.status.Matched? { BoundOwnersExist(db, e.references, m.process.value, after); }
  }

  lemma AdmittedRowArrives(db: Db, e: Event, bootstrap: Option<Ingestion.Bootstrap>, newId: Id)
    requires RowsOk(db) && DeliveriesOk(db)
    requires Ingestion.IngestRefusal(db, e, bootstrap, newId).None?
    requires (e.source, e.sourceId) !in db.sources
    ensures var m := Ingestion.FinalMatch(db, e, bootstrap, newId);
            RowArrives(db, Ingestion.Admitted(db, e, bootstrap, newId),
                       Ingestion.RowFor(Ingestion.Correlated(db, e, m, bootstrap), e, m), Outbox.EventKey(e.id))
  {
    hide RowsOk, DeliveriesOk, Ingestion.Bound, Ingestion.FinalMatch, Ingestion.Correlated;
    var m := Ingestion.FinalMatch(db, e, bootstrap, newId);
    MatchShape(db, e, bootstrap, newId);
    AdmittedOwnersExist(db, e, bootstrap, newId);
    AdmittedIdIsNew(db, e, bootstrap, newId);
    EventKeyIsFree(db, e.id);
    CorrelatedFrame(db, e, m, bootstrap);
    CorrelatedKeepsControls(db, e, m, bootstrap);
  }

  lemma AdmittedIdIsNew(db: Db, e: Event, bootstrap: Option<Ingestion.Bootstrap>, newId: Id)
    requires Ingestion.IngestRefusal(db, e, bootstrap, newId).None?
    ensures e.id !in db.inbox
  {
    hide Ingestion.FinalMatch, Ingestion.Bound, Ingestion.WithProcess;
  }

  lemma CorrelatedKeepsControls(db: Db, e: Event, m: Ingestion.Match, bootstrap: Option<Ingestion.Bootstrap>)
    requires m.status.Matched? ==> m.process.Some? && Ingestion.Bound(db.owners, e.references, m.process.value).Some?
    ensures Ingestion.Correlated(db, e, m, bootstrap).controls == db.controls
  {
    hide Ingestion.Bound, Ingestion.NewProcess;
  }

  lemma IngestKeepsMailInv(db: Db, e: Event, bootstrap: Option<Ingestion.Bootstrap>, ingress: Option<Deployment>,
                           newId: Id)
    requires MailInv(db)
    ensures var r := Ingestion.Ingested(db, e, bootstrap, ingress, newId); r.Ok? ==> MailInv(r.value)
  {
    hide Ingestion.IngestRefusal, Ingestion.Admitted, Ingestion.FinalMatch, Ingestion.RowFor, Ingestion.Correlated,
         IdentitiesOk, RowsOk, DeliveriesOk, RowArrives;
    if Ingestion.IngestRefusal(db, e, bootstrap, newId).None? && (e.source, e.sourceId) !in db.sources {
      var m := Ingestion.FinalMatch(db, e, bootstrap, newId);
      MatchIsBound(db, e, bootstrap, newId);
      AdmittedRowArrives(db, e, bootstrap, newId);
      ArrivalKeepsMailInv(db, Ingestion.Admitted(db, e, bootstrap, newId),
                          Ingestion.RowFor(Ingestion.Correlated(db, e, m, bootstrap), e, m), Outbox.EventKey(e.id));
    }
  }

  // ------------------------------------------------------- released events

  lemma ReleasedKeepsScheduled(db: Db, c: Ingestion.ResolveQuarantine)
    requires DeliveriesOk(db) && Ingestion.QuarantineRefusal(db, c).None?
    ensures AllScheduled(Ingestion.Released(db, c))
  {
    hide Ingestion.Bound, AllAskedFor;
    var after := Ingestion.Released(db, c);
    assert Outbox.EventKey(c.event) !in db.outbox by { EventKeyIsFree(db, c.event); }
    forall e | e in after.inbox && Ingestion.Delivers(after.inbox[e])
      ensures HasDelivery(after, e, after.inbox[e].process.value)
    {
      if e == c.event {
        assert Outbox.EventKey(e) in after.outbox;
      } else {
        DeliveryStays(db, after, e, db.inbox[e].process.value);
      }
    }
  }

  lemma ReleasedKeepsDeliveries(db: Db, c: Ingestion.ResolveQuarantine)
    requires DeliveriesOk(db) && Ingestion.QuarantineRefusal(db, c).None?
    ensures DeliveriesOk(Ingestion.Released(db, c))
  {
    hide Ingestion.Bound, AllScheduled;
    ReleasedKeepsScheduled(db, c);
    EventKeyIsFree(db, c.event);
  }

  lemma ReleasedKeepsRows(db: Db, c: Ingestion.ResolveQuarantine)
    requires RowsOk(db) && IdentitiesOk(db) && Ingestion.QuarantineRefusal(db, c).None?
    ensures RowsOk(Ingestion.Released(db, c)) && IdentitiesOk(Ingestion.Released(db, c))
  {
    hide Ingestion.Bound;
    BoundOwnersExist(db, c.references, c.process, Ingestion.Released(db, c));
  }

  lemma UnparkKeepsMailInv(db: Db, c: Ingestion.ResolveQuarantine, ingress: Option<Deployment>)
    requires MailInv(db)
    ensures var r := Ingestion.Unparked(db, c, ingress); r.Ok? ==> MailInv(r.value)
  {
    hide Ingestion.QuarantineRefusal, Ingestion.Released, IdentitiesOk, RowsOk, DeliveriesOk;
    if Ingestion.QuarantineRefusal(db, c).None? {
      ReleasedKeepsDeliveries(db, c);
      ReleasedKeepsRows(db, c);
    }
  }

  // ---------------------------------------------------------------- controls

  lemma ControlKeepsMailInv(db: Db, c: Processes.ControlCommand, eventId: Id)
    requires MailInv(db)
    ensures var r := Processes.Commanded(db, c, eventId); r.Ok? ==> MailInv(r.value)
  {
    hide MailInv, Processes.ControlRefusal, Processes.Carried;
    if Processes.ControlRefusal(db, c, eventId).None? && c.id !in db.controls {
      ControlTargets(db, c, eventId);
      CarriedKeepsMailInv(db, c, eventId);
    }
  }

  lemma CarriedKeepsMailInv(db: Db, c: Processes.ControlCommand, eventId: Id)
    requires MailInv(db) && Processes.ControlRefusal(db, c, eventId).None? && c.id !in db.controls
    requires c.process in db.processes && (c.kind.Retry? ==> c.intervention.Some?)
    ensures MailInv(Processes.Carried(db, c, eventId))
  {
    hide IdentitiesOk, RowsOk, Processes.ControlRefusal, Processes.Digits;
    ControlTargets(db, c, eventId);
    var after := Processes.Carried(db, c, eventId);
    var key := Outbox.ControlKey(c.id);
    assert key !in db.outbox;
    if c.kind.WakeNow? || c.kind.Resume? {
      hide DeliveriesOk;
      var row := InboxRow(Processes.WakeEvent(c, eventId, db.clock), Some(c.process), Matched, OperatorWake);
      WokenArrives(db, c, eventId, row);
      ArrivalKeepsMailInv(db, after, row, key);
    } else {
      hide DeliveriesOk;
      EnqueueKeepsMailInv(db, after, key, c.process);
    }
  }

  lemma WokenArrives(db: Db, c: Processes.ControlCommand, eventId: Id, row: InboxRow)
    requires RowsOk(db) && c.process in db.processes && (c.kind.WakeNow? || c.kind.Resume?)
    requires !Processes.WakeClashes(db, c.id, eventId) && Outbox.ControlKey(c.id) !in db.outbox
    requires row == InboxRow(Processes.WakeEvent(c, eventId, db.clock), Some(c.process), Matched, OperatorWake)
    ensures RowArrives(db, Processes.Carried(db, c, eventId), row, Outbox.ControlKey(c.id))
  {
    hide Processes.Digits;
  }

  // -------------------------------------------------------------- everything

  lemma ActionTxKeepsMailInv(db: Db, tx: Tx)
    requires CoreInv(db) && MailInv(db) && OfAction(tx)
    ensures MailInv(ApplyAction(db, tx))
  {
    hide CoreInv, MailInv, Execution.Reserve, Execution.Record, Execution.StartReconcile, Reviews.AppliedReview,
         Reviews.Resolved;
    match tx {
      case ReviewTx(c) => ReviewKeepsMailInv(db, c);
      case Resolve(c) => ResolveKeepsMailInv(db, c);
      case Reserve(release, adapter, p, id, revision) =>
        FinalReserveChangesNothing(db, release, adapter, p, id, revision);
        var r := Execution.Reserve(db, release, adapter, p, id, revision);
        if r.Ok? && !r.value.1.AlreadyFinal? {
          ReserveIsBoth(db, release, adapter, p, id, revision);
          BothKeepsMailInv(db, r.value.0, id);
        }
      case Record(key, status, effect) => RecordKeepsMailInv(db, key, status, effect);
      case Reconcile(release, p, id, revision) =>
        FinalReconcileChangesNothing(db, release, p, id, revision);
        var r := Execution.StartReconcile(db, release, p, id, revision);
        if r.Ok? && !r.value.1 {
          ReconcileIsBoth(db, release, p, id, revision);
          BothKeepsMailInv(db, r.value.0, id);
        }
    }
  }

  lemma BothKeepsMailInv(db: Db, after: Db, id: Id)
    requires MailInv(db)
    requires after == db.(attempts := after.attempts, actions := after.actions)
    ensures MailInv(after)
  {
    hide MailInv;
    SameOutboxKeepsMailInv(db, after);
  }

  lemma RecordKeepsMailInv(db: Db, key: Key, status: ActionStatus, effect: Option<Effect>)
    requires MailInv(db)
    ensures MailInv(Execution.Record(db, key, status, effect))
  {
    hide MailInv;
    SameOutboxKeepsMailInv(db, Execution.Record(db, key, status, effect));
  }

  lemma ReviewKeepsMailInv(db: Db, c: Reviews.ReviewCommand)
    requires MailInv(db)
    ensures var r := Reviews.AppliedReview(db, c); r.Ok? ==> MailInv(r.value)
  {
    hide MailInv, Reviews.Reviewed, Reviews.Decisions, Enqueued;
    var r := Reviews.AppliedReview(db, c);
    if r.Ok? && c.id !in db.reviews {
      EnqueueKeepsMailInv(db, r.value, Outbox.ReviewKey(c.id), c.process);
    }
  }

  lemma ResolveKeepsMailInv(db: Db, c: Reviews.ResolveCommand)
    requires MailInv(db)
    ensures var r := Reviews.Resolved(db, c); r.Ok? ==> MailInv(r.value)
  {
    hide MailInv, Reviews.ResolvedAttempt, Enqueued;
    var r := Reviews.Resolved(db, c);
    if r.Ok? && c.attempt !in db.resolutions {
      EnqueueKeepsMailInv(db, r.value, Outbox.ResolutionKey(c.id), c.process);
    }
  }

  lemma DecideIsQuiet(db: Db, p: Id, turn: Id, d: Decision, limits: Processes.Limits)
    ensures var r := Processes.Decided(db, p, turn, d, limits);
            r.Ok? ==> QuietMail(db, r.value) && r.value.outbox == db.outbox
  {
    hide Processes.Decided, OnlyProcess;
    var r := Processes.Decided(db, p, turn, d, limits);
    if r.Ok? && r.value != db { DecideFrame(db, p, turn, d, limits); }
  }

  lemma InterveneIsQuiet(db: Db, p: Id, turn: Id)
    ensures var r := Processes.Intervened(db, p, turn);
            r.Ok? ==> QuietMail(db, r.value) && r.value.outbox == db.outbox
  {}

  lemma QuietTxKeepsMailInv(db: Db, tx: Tx)
    requires MailInv(db) && (tx.Persist? || tx.Decide? || tx.Intervene?)
    ensures MailInv(ApplyProcess(db, tx))
  {
    hide MailInv, QuietMail, Gateway.Persisted, Processes.Decided, Processes.Intervened;
    match tx {
      case Persist(p, turn, d, breakers) =>
        PersistIsQuiet(db, p, turn, d, breakers);
        var r := Gateway.Persisted(db, p, turn, d, breakers);
        if r.Ok? { SameOutboxKeepsMailInv(db, r.value); }
      case Decide(p, turn, d, limits) =>
        DecideIsQuiet(db, p, turn, d, limits);
        var r := Processes.Decided(db, p, turn, d, limits);
        if r.Ok? { SameOutboxKeepsMailInv(db, r.value); }
      case Intervene(p, turn) =>
        InterveneIsQuiet(db, p, turn);
        var r := Processes.Intervened(db, p, turn);
        if r.Ok? { SameOutboxKeepsMailInv(db, r.value); }
    }
  }

  lemma PersistIsQuiet(db: Db, p: Id, turn: Id, d: Decision, breakers: Gateway.Breakers)
    ensures var r := Gateway.Persisted(db, p, turn, d, breakers);
            r.Ok? ==> QuietMail(db, r.value) && r.value.outbox == db.outbox
  {
    hide Gateway.Persisted;
    PersistTouches(db, p, turn, d, breakers);
  }

  lemma ProcessTxKeepsMailInv(db: Db, tx: Tx)
    requires MailInv(db) && !OfTenant(tx) && !OfAction(tx)
    ensures MailInv(ApplyProcess(db, tx))
  {
    hide MailInv, Ingestion.Ingested, Ingestion.Unparked, Processes.Commanded;
    if tx.Persist? || tx.Decide? || tx.Intervene? {
      hide ApplyProcess;
      QuietTxKeepsMailInv(db, tx);
    } else {
      hide Gateway.Persisted, Processes.Decided, Processes.Intervened;
      match tx {
        case Ingest(e, bootstrap, ingress, newId) => IngestKeepsMailInv(db, e, bootstrap, ingress, newId);
        case Unpark(c, ingress) => UnparkKeepsMailInv(db, c, ingress);
        case ControlTx(c, eventId) => ControlKeepsMailInv(db, c, eventId);
      }
    }
  }

  lemma TenantKeepsMailInv(db: Db, clock: int, active: bool, deployment: Deployment,
                           outbox: map<Outbox.DedupKey, Outbox.Message>)
    requires MailInv(db) && RowsEvolve(db.outbox, outbox)
    ensures MailInv(db.(clock := clock, active := active, deployment := deployment, outbox := outbox))
  {
    hide MailInv;
    RowsEvolveKeepMailInv(db, db.(clock := clock, active := active, deployment := deployment, outbox := outbox));
  }

  lemma TenantTxKeepsMailInv(db: Db, tx: Tx)
    requires MailInv(db) && OfTenant(tx)
    ensures MailInv(ApplyTenant(db, tx))
  {
    hide MailInv, Ingestion.HasActiveProcess, Ingestion.HasOutstanding;
    match tx {
      case Tick(seconds) => TenantKeepsMailInv(db, db.clock + seconds, db.active, db.deployment, db.outbox);
      case SetActive(flag) => TenantKeepsMailInv(db, db.clock, flag, db.deployment, db.outbox);
      case Assign(target, _) => TenantKeepsMailInv(db, db.clock, db.active, target, db.outbox);
      case Dispatch(rows) =>
        if RowsEvolve(db.outbox, rows) { TenantKeepsMailInv(db, db.clock, db.active, db.deployment, rows); }
    }
  }

  lemma ApplyKeepsMailInv(db: Db, tx: Tx)
    requires CoreInv(db) && MailInv(db)
    ensures MailInv(Apply(db, tx))
  {
    hide CoreInv, MailInv, ApplyTenant, ApplyAction, ApplyProcess;
    if OfAction(tx) {
      ActionTxKeepsMailInv(db, tx);
    } else if OfTenant(tx) {
      TenantTxKeepsMailInv(db, tx);
    } else {
      ProcessTxKeepsMailInv(db, tx);
    }
  }
}
