/** Which transactions leave requests and attempts alone. */
module Footprints {
  import opened Contracts
  import opened Store
  import opened Protocol
  import opened Frames
  import Gateway
  import Reviews
  import Processes
  import Ingestion
  import Execution
  import Outbox

  lemma ReviewTouches(db: Db, c: Reviews.ReviewCommand)
    ensures var r := Reviews.AppliedReview(db, c);
            r.Ok? ==> r.value.order == db.order && r.value.attempts == db.attempts
  {
    hide Reviews.Reviewed, Reviews.Decisions, Enqueued;
  }

  lemma ResolveTouches(db: Db, c: Reviews.ResolveCommand)
    ensures var r := Reviews.Resolved(db, c); r.Ok? ==> r.value.order == db.order
  {
    hide Reviews.ResolvedAttempt, Enqueued;
  }

  lemma IngestTouches(db: Db, e: Event, bootstrap: Option<Ingestion.Bootstrap>, ingress: Option<Deployment>, newId: Id)
    ensures var r := Ingestion.Ingested(db, e, bootstrap, ingress, newId); r.Ok? ==> WorkSame(db, r.value)
  {
    hide Ingestion.IngestRefusal, Ingestion.Admitted, Ingestion.FinalMatch;
    if Ingestion.IngestRefusal(db, e, bootstrap, newId).None? { IngestFrame(db, e, bootstrap, newId); }
  }

  lemma UnparkTouches(db: Db, c: Ingestion.ResolveQuarantine, ingress: Option<Deployment>)
    ensures var r := Ingestion.Unparked(db, c, ingress); r.Ok? ==> WorkSame(db, r.value)
  {
    hide Ingestion.QuarantineRefusal, Ingestion.Released;
    if Ingestion.QuarantineRefusal(db, c).None? { UnparkFrame(db, c); }
  }

  lemma DecideTouches(db: Db, p: Id, turn: Id, d: Decision, limits: Processes.Limits)
    ensures var r := Processes.Decided(db, p, turn, d, limits); r.Ok? ==> WorkSame(db, r.value)
  {
    hide Processes.Decided;
    var r := Processes.Decided(db, p, turn, d, limits);
    if r.Ok? && r.value != db { DecideFrame(db, p, turn, d, limits); }
  }

  lemma InterveneTouches(db: Db, p: Id, turn: Id)
    ensures var r := Processes.Intervened(db, p, turn); r.Ok? ==> WorkSame(db, r.value)
  {}

  lemma ControlTouches(db: Db, c: Processes.ControlCommand, eventId: Id)
    ensures var r := Processes.Commanded(db, c, eventId); r.Ok? ==> WorkSame(db, r.value)
  {
    hide Processes.ControlRefusal, Processes.Carried;
    if Processes.ControlRefusal(db, c, eventId).None? { ControlFrame(db, c, eventId); }
  }

  lemma MoveTouches(db: Db, target: Deployment, reason: string)
    ensures var r := Ingestion.Moved(db, target, reason);
            r.Ok? ==> r.value == db || r.value == db.(deployment := target)
  {
    hide Ingestion.HasActiveProcess, Ingestion.HasOutstanding;
  }

  lemma ProcessTxTouches(db: Db, tx: Tx)
    requires !OfTenant(tx) && !OfAction(tx) && !tx.Persist?
    ensures WorkSame(db, ApplyProcess(db, tx))
  {
    hide Ingestion.Ingested, Ingestion.Unparked, Processes.Decided, Processes.Intervened, Processes.Commanded;
    match tx {
      case Ingest(e, bootstrap, ingress, newId) => IngestTouches(db, e, bootstrap, ingress, newId);
      case Unpark(c, ingress) => UnparkTouches(db, c, ingress);
      case Decide(p, turn, d, limits) => DecideTouches(db, p, turn, d, limits);
      case Intervene(p, turn) => InterveneTouches(db, p, turn);
      case ControlTx(c, eventId) => ControlTouches(db, c, eventId);
    }
  }

  lemma TenantTouches(db: Db, clock: int, active: bool, deployment: Deployment,
                      outbox: map<Outbox.DedupKey, Outbox.Message>)
    ensures WorkSame(db, db.(clock := clock, active := active, deployment := deployment, outbox := outbox))
  {}

  lemma TenantTxTouches(db: Db, tx: Tx)
    requires OfTenant(tx)
    ensures WorkSame(db, ApplyTenant(db, tx))
  {
    hide Ingestion.Moved, RowsEvolve, WorkSame;
    TenantTouches(db, db.clock, db.active, db.deployment, db.outbox);
    match tx {
      case Tick(seconds) => TenantTouches(db, db.clock + seconds, db.active, db.deployment, db.outbox);
      case SetActive(flag) => TenantTouches(db, db.clock, flag, db.deployment, db.outbox);
      case Assign(target, reason) =>
        MoveTouches(db, target, reason);
        TenantTouches(db, db.clock, db.active, target, db.outbox);
      case Dispatch(rows) => TenantTouches(db, db.clock, db.active, db.deployment, rows);
    }
  }

  lemma ActionTxKeepsOrder(db: Db, tx: Tx)
    requires OfAction(tx)
    ensures ApplyAction(db, tx).order == db.order
    ensures tx.ReviewTx? ==> ApplyAction(db, tx).attempts == db.attempts
  {
    hide Execution.Reserve, Execution.Record, Execution.StartReconcile, Reviews.AppliedReview, Reviews.Resolved;
    match tx {
      case Reserve(release, adapter, p, id, revision) => ReserveTouches(db, release, adapter, p, id, revision);
      case Record(key, status, effect) => RecordTouches(db, key, status, effect);
      case Reconcile(release, p, id, revision) => ReconcileTouches(db, release, p, id, revision);
      case ReviewTx(c) => ReviewTouches(db, c);
      case Resolve(c) => ResolveTouches(db, c);
    }
  }

  /** Only the gateway adds requests. */
  lemma KeepsOrder(db: Db, tx: Tx)
    requires !tx.Persist?
    ensures Apply(db, tx).order == db.order
  {
    hide ApplyTenant, ApplyAction, ApplyProcess;
    if OfTenant(tx) { TenantTxTouches(db, tx); }
    else if OfAction(tx) { ActionTxKeepsOrder(db, tx); }
    else { ProcessTxTouches(db, tx); }
  }

  lemma {:induction false} PersistUpToTouches(db: Db, p: Id, turn: Id, actions: seq<Proposal>, n: nat,
                                              targets: seq<Gateway.Target>, conflicted: set<Payload>,
                                              breakers: Gateway.Breakers)
    requires p in db.processes && n <= |actions|
    ensures var r := Gateway.PersistUpTo(db, p, turn, actions, n, targets, conflicted, breakers);
            r.Ok? ==>
              r.value == db.(actions := r.value.actions, order := r.value.order, slots := r.value.slots)
  {
    hide Gateway.PersistOne, Gateway.NewAction;
    if n > 0 {
      PersistUpToTouches(db, p, turn, actions, n - 1, targets, conflicted, breakers);
      var r := Gateway.PersistUpTo(db, p, turn, actions, n, targets, conflicted, breakers);
      if r.Ok? {
        var before := Gateway.PersistUpTo(db, p, turn, actions, n - 1, targets, conflicted, breakers).value;
        var supersedes := Gateway.Assigned(targets, actions, n)[n - 1];
        Gateway.PersistOneInserts(before, p, turn, actions[n - 1], supersedes, conflicted, breakers);
      }
    }
  }

  /** Persisting a decision adds requests and nothing else. */
  lemma PersistTouches(db: Db, p: Id, turn: Id, d: Decision, breakers: Gateway.Breakers)
    ensures var r := Gateway.Persisted(db, p, turn, d, breakers);
            r.Ok? ==>
              r.value == db.(actions := r.value.actions, order := r.value.order, slots := r.value.slots)
  {
    hide Gateway.PersistUpTo;
    if Gateway.Closed(db, p, breakers).None? {
      PersistUpToTouches(db, p, turn, d.actions, |d.actions|, Gateway.RevisionTargets(db, p, d.reviewIds),
                         Gateway.ConflictedPayloads(db, p, d.attemptIds), breakers);
    }
  }

  /** Only executions and operator resolutions touch attempts. */
  lemma KeepsAttempts(db: Db, tx: Tx)
    requires !OfAction(tx) || tx.ReviewTx?
    ensures Apply(db, tx).attempts == db.attempts
  {
    if tx.Persist? {
      hide Gateway.Persisted;
      PersistTouches(db, tx.process, tx.turn, tx.decision, tx.breakers);
    } else {
      hide ApplyTenant, ApplyAction, ApplyProcess;
      if OfTenant(tx) { TenantTxTouches(db, tx); }
      else if OfAction(tx) { ActionTxKeepsOrder(db, tx); }
      else { ProcessTxTouches(db, tx); }
    }
  }
}
