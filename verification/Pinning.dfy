/** Live work stays pinned to the tenant's deployment. */
module Pinning {
  import opened Contracts
  import opened Store
  import opened Protocol
  import opened Frames
  import opened Footprints
  import opened CoreInvariant
  import opened Correlations
  import Gateway
  import Reviews
  import Processes
  import Ingestion
  import Execution
  import Outbox

  /** No service cancels or fails a process. */
  ghost predicate EndsCompleted(db: Db) {
    forall p :: p in db.processes && IsTerminal(db.processes[p].status) ==> db.processes[p].status.Completed?
  }

  predicate IsLive(db: Db, p: Id)
    requires p in db.processes
  {
    !IsTerminal(db.processes[p].status)
  }

  ghost predicate MessagePinned(db: Db, k: Outbox.DedupKey, d: Deployment)
    requires k in db.outbox
  {
    !db.outbox[k].status.Published? ==>
      db.outbox[k].process in db.processes && db.processes[db.outbox[k].process].deployment == d
  }

  /** Every nonterminal process and every undelivered message belongs to the deployment. */
  ghost predicate LiveWorkIsFor(db: Db, d: Deployment) {
    && (forall p :: p in db.processes && IsLive(db, p) ==> db.processes[p].deployment == d)
    && (forall k :: k in db.outbox ==> MessagePinned(db, k, d))
  }

  /** Live work is for the tenant's current deployment. For a tenant that is still unassigned
      that is the mark which legacy rows carry. */
  ghost predicate Pinned(db: Db) {
    EndsCompleted(db) && LiveWorkIsFor(db, db.deployment)
  }

  ghost predicate NothingLive(db: Db) {
    && (forall p :: p in db.processes ==> !IsLive(db, p))
    && (forall k :: k in db.outbox ==> db.outbox[k].status.Published?)
  }

  /** The same without legacy rows: an unassigned tenant has no live work. */
  ghost predicate PinInv(db: Db) {
    Pinned(db) && (db.deployment == UNASSIGNED ==> NothingLive(db))
  }

  /** A trigger's bootstrap names the deployment that received the event. */
  predicate Trusted(tx: Tx) {
    tx.Ingest? && tx.bootstrap.Some? ==>
      tx.ingress == Some(tx.bootstrap.value.deployment) && tx.bootstrap.value.deployment != UNASSIGNED
  }

  // ------------------------------------------------------------ generic steps

  /** Processes keep their pinning, new ones are pinned, and new messages are for live ones. */
  ghost predicate PinnedStep(db: Db, after: Db) {
    && after.deployment == db.deployment
    && (forall p :: p in db.processes ==>
          && p in after.processes && after.processes[p].deployment == db.processes[p].deployment
          && (IsTerminal(db.processes[p].status) ==> after.processes[p].status == db.processes[p].status)
          && (IsTerminal(after.processes[p].status) ==>
                after.processes[p].status == db.processes[p].status || after.processes[p].status.Completed?))
    && (forall p :: p in after.processes && p !in db.processes ==>
          after.processes[p].deployment == db.deployment && !IsTerminal(after.processes[p].status) &&
          db.deployment != UNASSIGNED)
    && (forall k :: k in after.outbox ==>
          (k in db.outbox && after.outbox[k].process == db.outbox[k].process &&
           (db.outbox[k].status.Published? ==> after.outbox[k].status.Published?)) ||
          (after.outbox[k].process in after.processes &&
           !IsTerminal(after.processes[after.outbox[k].process].status)))
  }

  lemma StepStaysPinned(db: Db, after: Db)
    requires Pinned(db) && PinnedStep(db, after)
    ensures Pinned(after)
  {
    forall k | k in after.outbox ensures MessagePinned(after, k, after.deployment) {
      if k in db.outbox { assert MessagePinned(db, k, db.deployment); }
    }
  }

  lemma StepKeepsPins(db: Db, after: Db)
    requires PinInv(db) && PinnedStep(db, after)
    ensures PinInv(after)
  {
    StepStaysPinned(db, after);
    if db.deployment == UNASSIGNED {
      forall p | p in after.processes ensures !IsLive(after, p) {
        if p in db.processes { assert !IsLive(db, p); }
      }
      assert forall k :: k in after.outbox && after.outbox[k].process in after.processes ==>
                           !IsLive(after, after.outbox[k].process);
    }
  }

  lemma SameProcessesPinned(db: Db, after: Db)
    requires after.deployment == db.deployment && after.processes == db.processes && after.outbox == db.outbox
    ensures PinnedStep(db, after)
  {}

  lemma EnqueuePinned(db: Db, after: Db, key: Outbox.DedupKey, p: Id, cause: Option<Id>)
    requires after.deployment == db.deployment && after.processes == db.processes
    requires after.outbox == Enqueued(db, key, p, cause)
    requires p in db.processes && !IsTerminal(db.processes[p].status)
    ensures PinnedStep(db, after)
  {}

  lemma OneProcessPinned(db: Db, after: Db, p: Id)
    requires after.deployment == db.deployment && OnlyProcess(db, after, p)
    requires IsTerminal(db.processes[p].status) ==> after.processes == db.processes
    requires IsTerminal(after.processes[p].status) ==>
               after.processes[p].status == db.processes[p].status || after.processes[p].status.Completed?
    requires after.outbox == db.outbox ||
             (!IsTerminal(after.processes[p].status) &&
              exists key, cause :: after.outbox == Enqueued(db, key, p, cause))
    ensures PinnedStep(db, after)
  {}

  // -------------------------------------------------------- the transactions

  lemma ReviewPinned(db: Db, c: Reviews.ReviewCommand)
    ensures var r := Reviews.AppliedReview(db, c); r.Ok? ==> PinnedStep(db, r.value)
  {
    hide PinnedStep, Reviews.Reviewed, Reviews.Decisions, Enqueued;
    SameProcessesPinned(db, db);
    var r := Reviews.AppliedReview(db, c);
    if r.Ok? && c.id !in db.reviews {
      EnqueuePinned(db, r.value, Outbox.ReviewKey(c.id), c.process, None);
    }
  }

  /** An operator resolution can only concern a live process: the attempt it settles is not
      terminal, so its request is open, so its process has not completed. */
  lemma ResolvePinned(db: Db, c: Reviews.ResolveCommand)
    requires CoreInv(db) && EndsCompleted(db)
    ensures var r := Reviews.Resolved(db, c); r.Ok? ==> PinnedStep(db, r.value)
  {
    hide CoreInv, PinnedStep, Reviews.ResolvedAttempt, Enqueued;
    SameProcessesPinned(db, db);
    var r := Reviews.Resolved(db, c);
    if r.Ok? && c.attempt !in db.resolutions {
      InFlightIsNotCompleted(db, c.attempt);
      EnqueuePinned(db, r.value, Outbox.ResolutionKey(c.id), c.process, None);
    }
  }

  lemma ActionTxPinned(db: Db, tx: Tx)
    requires CoreInv(db) && EndsCompleted(db) && OfAction(tx)
    ensures PinnedStep(db, ApplyAction(db, tx))
  {
    hide CoreInv, EndsCompleted, PinnedStep, Reviews.AppliedReview, Reviews.Resolved, Execution.Reserve,
         Execution.Record, Execution.StartReconcile;
    SameProcessesPinned(db, db);
    match tx {
      case ReviewTx(c) => ReviewPinned(db, c);
      case Resolve(c) => ResolvePinned(db, c);
      case Reserve(release, adapter, p, id, revision) =>
        ReserveTouches(db, release, adapter, p, id, revision);
        SameProcessesPinned(db, ApplyAction(db, tx));
      case Record(key, status, effect) =>
        RecordTouches(db, key, status, effect);
        SameProcessesPinned(db, ApplyAction(db, tx));
      case Reconcile(release, p, id, revision) =>
        ReconcileTouches(db, release, p, id, revision);
        SameProcessesPinned(db, ApplyAction(db, tx));
    }
  }

  lemma DecidePinned(db: Db, p: Id, turn: Id, d: Decision, limits: Processes.Limits)
    ensures var r := Processes.Decided(db, p, turn, d, limits); r.Ok? ==> PinnedStep(db, r.value)
  {
    hide PinnedStep, OnlyProcess;
    SameProcessesPinned(db, db);
    var r := Processes.Decided(db, p, turn, d, limits);
    if r.Ok? && r.value != db {
      DecideFrame(db, p, turn, d, limits);
      DecidedStatus(db, p, turn, d, limits);
      OneProcessPinned(db, r.value, p);
    }
  }

  lemma DecidedStatus(db: Db, p: Id, turn: Id, d: Decision, limits: Processes.Limits)
    requires var r := Processes.Decided(db, p, turn, d, limits); r.Ok? && r.value != db
    ensures p in db.processes && p in Processes.Decided(db, p, turn, d, limits).value.processes
    ensures Processes.Decided(db, p, turn, d, limits).value.processes[p].status in {Active, Waiting, Review, Completed}
  {}

  lemma IntervenePinned(db: Db, p: Id, turn: Id)
    ensures var r := Processes.Intervened(db, p, turn); r.Ok? ==> PinnedStep(db, r.value)
  {
    hide PinnedStep, OnlyProcess;
    SameProcessesPinned(db, db);
    var r := Processes.Intervened(db, p, turn);
    if r.Ok? && r.value != db {
      InterveneFrame(db, p, turn);
      OneProcessPinned(db, r.value, p);
    }
  }

  lemma CarriedOutbox(db: Db, c: Processes.ControlCommand, eventId: Id)
    requires c.process in db.processes && (c.kind.Retry? ==> c.intervention.Some?)
    ensures exists key, cause :: Processes.Carried(db, c, eventId).outbox == Enqueued(db, key, c.process, cause)
  {
    hide Enqueued, Processes.Controlled, Processes.Digits;
    var stored := Processes.Obeyed(db, c);
    var cause := if c.kind.WakeNow? || c.kind.Resume? then Some(eventId) else None;
    EnqueueReadsOutbox(db, stored, Outbox.ControlKey(c.id), c.process, cause);
    assert Processes.Carried(db, c, eventId).outbox == Enqueued(db, Outbox.ControlKey(c.id), c.process, cause);
  }

  lemma ControlPinned(db: Db, c: Processes.ControlCommand, eventId: Id)
    ensures var r := Processes.Commanded(db, c, eventId); r.Ok? ==> PinnedStep(db, r.value)
  {
    hide PinnedStep, Processes.ControlRefusal, Processes.Carried, Enqueued;
    SameProcessesPinned(db, db);
    if Processes.ControlRefusal(db, c, eventId).None? && c.id !in db.controls {
      ControlFrame(db, c, eventId);
      CarriedOutbox(db, c, eventId);
      OneProcessPinned(db, Processes.Carried(db, c, eventId), c.process);
    }
  }

  lemma AdmittedPinned(db: Db, e: Event, bootstrap: Option<Ingestion.Bootstrap>, newId: Id)
    requires Ingestion.IngestRefusal(db, e, bootstrap, newId).None?
    requires bootstrap.Some? ==> bootstrap.value.deployment == db.deployment != UNASSIGNED
    ensures PinnedStep(db, Ingestion.Admitted(db, e, bootstrap, newId))
  {
    hide Ingestion.FinalMatch, Ingestion.Bound;
    MatchShape(db, e, bootstrap, newId);
    IngestFrame(db, e, bootstrap, newId);
  }

  lemma IngestPinned(db: Db, tx: Tx)
    requires tx.Ingest? && Trusted(tx)
    ensures PinnedStep(db, ApplyProcess(db, tx))
  {
    hide PinnedStep, Ingestion.IngestRefusal, Ingestion.Admitted;
    SameProcessesPinned(db, db);
    if Ingestion.IngestRefusal(db, tx.event, tx.bootstrap, tx.newId).None? &&
       Ingestion.IngressError(db, tx.ingress).None? {
      AdmittedPinned(db, tx.event, tx.bootstrap, tx.newId);
    }
  }

  lemma UnparkPinned(db: Db, c: Ingestion.ResolveQuarantine, ingress: Option<Deployment>)
    ensures var r := Ingestion.Unparked(db, c, ingress); r.Ok? ==> PinnedStep(db, r.value)
  {
    hide PinnedStep, Ingestion.QuarantineRefusal, Ingestion.Released;
    SameProcessesPinned(db, db);
    if Ingestion.QuarantineRefusal(db, c).None? { ReleasedPinned(db, c); }
  }

  lemma ReleasedPinned(db: Db, c: Ingestion.ResolveQuarantine)
    requires Ingestion.QuarantineRefusal(db, c).None?
    ensures PinnedStep(db, Ingestion.Released(db, c))
  {
    hide PinnedStep, Ingestion.Bound, Enqueued;
    var after := Ingestion.Released(db, c);
    if IsTerminal(db.processes[c.process].status) {
      SameProcessesPinned(db, after);
    } else {
      EnqueuePinned(db, after, Outbox.EventKey(c.event), c.process, Some(c.event));
    }
  }

  lemma PersistPinned(db: Db, p: Id, turn: Id, d: Decision, breakers: Gateway.Breakers)
    ensures var r := Gateway.Persisted(db, p, turn, d, breakers); r.Ok? ==> PinnedStep(db, r.value)
  {
    hide PinnedStep, Gateway.Persisted;
    PersistTouches(db, p, turn, d, breakers);
    var r := Gateway.Persisted(db, p, turn, d, breakers);
    if r.Ok? { SameProcessesPinned(db, r.value); }
  }

  lemma ProcessTxPinned(db: Db, tx: Tx)
    requires Trusted(tx) && !OfTenant(tx) && !OfAction(tx)
    ensures PinnedStep(db, ApplyProcess(db, tx))
  {
    if tx.Ingest? {
      hide PinnedStep, ApplyProcess;
      IngestPinned(db, tx);
    } else {
      hide PinnedStep, Ingestion.Unparked, Gateway.Persisted, Processes.Decided, Processes.Intervened,
           Processes.Commanded;
      SameProcessesPinned(db, db);
      match tx {
        case Unpark(c, ingress) => UnparkPinned(db, c, ingress);
        case Persist(p, turn, d, breakers) => PersistPinned(db, p, turn, d, breakers);
        case Decide(p, turn, d, limits) => DecidePinned(db, p, turn, d, limits);
        case Intervene(p, turn) => IntervenePinned(db, p, turn);
        case ControlTx(c, eventId) => ControlPinned(db, c, eventId);
      }
    }
  }

  // -------------------------------------------------------------- assignment

  /** What the guard of an assignment looks at, as the live work it finds. */
  lemma GuardFindsLiveWork(db: Db, d: Deployment)
    requires LiveWorkIsFor(db, d)
    ensures NothingLive(db) <==> !Ingestion.HasActiveProcess(db) && !Ingestion.HasOutstanding(db, d)
  {
    if !Ingestion.HasActiveProcess(db) && !Ingestion.HasOutstanding(db, d) {
      forall k | k in db.outbox ensures db.outbox[k].status.Published? { assert MessagePinned(db, k, d); }
    }
    if NothingLive(db) {
      forall p | p in db.processes ensures IsTerminal(db.processes[p].status) { assert !IsLive(db, p); }
    }
  }

  /** A move to another deployment is safe exactly when there is nothing to leave behind. */
  lemma MovingIsSafeExactly(db: Db, target: Deployment)
    requires Pinned(db) && db.deployment != target && target != UNASSIGNED
    ensures Pinned(db.(deployment := target)) <==> NothingLive(db)
    ensures PinInv(db.(deployment := target)) <==> NothingLive(db)
  {
    var after := db.(deployment := target);
    if NothingLive(db) {
      forall k | k in after.outbox ensures MessagePinned(after, k, target) {}
      forall p | p in after.processes ensures !IsLive(after, p) { assert !IsLive(db, p); }
    }
    if LiveWorkIsFor(after, target) {
      forall p | p in db.processes ensures !IsLive(db, p) { assert IsLive(db, p) <==> IsLive(after, p); }
      forall k | k in db.outbox ensures db.outbox[k].status.Published? {
        assert MessagePinned(db, k, db.deployment) && MessagePinned(after, k, target);
      }
    }
  }

  lemma MoveTakes(db: Db, target: Deployment, reason: string)
    ensures var r := Ingestion.Moved(db, target, reason);
            r.Ok? && r.value != db ==>
              && db.deployment != target && target != UNASSIGNED && r.value == db.(deployment := target)
              && (db.deployment != UNASSIGNED ==>
                    !Ingestion.HasActiveProcess(db) && !Ingestion.HasOutstanding(db, db.deployment))
  {
    hide Ingestion.HasActiveProcess, Ingestion.HasOutstanding;
  }

  /** A move between assigned deployments leaves nothing live behind. */
  lemma MoveKeepsPins(db: Db, target: Deployment, reason: string)
    requires PinInv(db)
    ensures var r := Ingestion.Moved(db, target, reason); r.Ok? ==> PinInv(r.value)
  {
    hide Ingestion.Moved, NothingLive, LiveWorkIsFor, Ingestion.HasActiveProcess, Ingestion.HasOutstanding;
    var r := Ingestion.Moved(db, target, reason);
    if r.Ok? && r.value != db {
      MoveTakes(db, target, reason);
      GuardFindsLiveWork(db, db.deployment);
      MovingIsSafeExactly(db, target);
    }
  }

  lemma TenantTxKeepsPins(db: Db, tx: Tx)
    requires PinInv(db) && OfTenant(tx)
    ensures PinInv(ApplyTenant(db, tx))
  {
    hide PinInv, PinnedStep, Ingestion.Moved, RowsEvolve;
    if tx.Assign? {
      MoveKeepsPins(db, tx.target, tx.reason);
    } else {
      TenantTxPinned(db, tx);
      StepKeepsPins(db, ApplyTenant(db, tx));
    }
  }

  lemma TenantTxPinned(db: Db, tx: Tx)
    requires OfTenant(tx) && !tx.Assign?
    ensures PinnedStep(db, ApplyTenant(db, tx))
  {
    hide PinnedStep, RowsEvolve;
    match tx {
      case Tick(seconds) => SameProcessesPinned(db, db.(clock := db.clock + seconds));
      case SetActive(flag) => SameProcessesPinned(db, db.(active := flag));
      case Dispatch(rows) =>
        SameProcessesPinned(db, db);
        if RowsEvolve(db.outbox, rows) { DispatchPinned(db, rows); }
    }
  }

  lemma DispatchPinned(db: Db, rows: map<Outbox.DedupKey, Outbox.Message>)
    requires RowsEvolve(db.outbox, rows)
    ensures PinnedStep(db, db.(outbox := rows))
  {}

  /** Every transaction but an assignment pins what it makes. */
  lemma OtherTxPinned(db: Db, tx: Tx)
    requires CoreInv(db) && EndsCompleted(db) && Trusted(tx) && !tx.Assign?
    ensures PinnedStep(db, Apply(db, tx))
  {
    hide CoreInv, EndsCompleted, PinnedStep, ApplyTenant, ApplyAction, ApplyProcess;
    if OfTenant(tx) { TenantTxPinned(db, tx); }
    else if OfAction(tx) { ActionTxPinned(db, tx); }
    else { ProcessTxPinned(db, tx); }
  }

  /** Every transaction keeps live work pinned, given trusted triggers. */
  lemma ApplyKeepsPins(db: Db, tx: Tx)
    requires CoreInv(db) && PinInv(db) && Trusted(tx)
    ensures PinInv(Apply(db, tx))
  {
    if tx.Assign? {
      hide CoreInv, PinInv, ApplyTenant;
      TenantTxKeepsPins(db, tx);
    } else {
      hide CoreInv, PinnedStep, LiveWorkIsFor, NothingLive, Apply;
      OtherTxPinned(db, tx);
      StepKeepsPins(db, Apply(db, tx));
    }
  }

  lemma {:induction false} RunKeepsPins(db: Db, txs: seq<Tx>)
    requires CoreInv(db) && PinInv(db)
    requires forall i :: 0 <= i < |txs| ==> Sound(txs[i]) && Trusted(txs[i])
    ensures PinInv(Run(db, txs))
  {
    hide CoreInv, PinInv, Apply;
    if txs != [] {
      RunKeepsPins(db, txs[..|txs| - 1]);
      RunKeepsCore(db, txs[..|txs| - 1]);
      ApplyKeepsPins(Run(db, txs[..|txs| - 1]), txs[|txs| - 1]);
    }
  }

  // ------------------------------------------------------------ legacy tenants

  /** The transaction is an accepted first assignment of a tenant with live legacy work, which
      the code makes without looking at its rows. */
  ghost predicate StrandsWork(db: Db, tx: Tx) {
    && tx.Assign? && db.deployment == UNASSIGNED && tx.target != UNASSIGNED && ReasonOk(tx.reason)
    && (Ingestion.HasActiveProcess(db) || Ingestion.HasOutstanding(db, UNASSIGNED))
  }

  /** Legacy rows included: the one transaction that can leave live work behind is a first
      assignment, and it does so exactly when the guard it skips would have refused. */
  lemma StaysPinnedExactly(db: Db, tx: Tx)
    requires CoreInv(db) && Pinned(db) && Trusted(tx)
    ensures Pinned(Apply(db, tx)) <==> !StrandsWork(db, tx)
  {
    if tx.Assign? {
      hide CoreInv, NothingLive, EndsCompleted, LiveWorkIsFor, Ingestion.HasActiveProcess, Ingestion.HasOutstanding;
      GuardFindsLiveWork(db, db.deployment);
      if db.deployment != tx.target && tx.target != UNASSIGNED { MovingIsSafeExactly(db, tx.target); }
    } else {
      hide CoreInv, PinnedStep, LiveWorkIsFor, EndsCompleted, Apply;
      OtherTxPinned(db, tx);
      StepStaysPinned(db, Apply(db, tx));
    }
  }

  /** Nothing returns a tenant to the unassigned state. */
  lemma StaysAssigned(db: Db, tx: Tx)
    requires CoreInv(db) && EndsCompleted(db) && Trusted(tx) && db.deployment != UNASSIGNED
    ensures Apply(db, tx).deployment != UNASSIGNED
  {
    if tx.Assign? {
      hide CoreInv, EndsCompleted, Ingestion.HasActiveProcess, Ingestion.HasOutstanding;
    } else {
      hide CoreInv, EndsCompleted, Apply;
      OtherTxPinned(db, tx);
    }
  }

  lemma EndsStayCompleted(db: Db, tx: Tx)
    requires CoreInv(db) && EndsCompleted(db) && Trusted(tx)
    ensures EndsCompleted(Apply(db, tx))
  {
    if tx.Assign? {
      hide CoreInv, Ingestion.HasActiveProcess, Ingestion.HasOutstanding;
    } else {
      hide CoreInv, Apply;
      OtherTxPinned(db, tx);
    }
  }

  /** An unassigned tenant keeps its live work to itself for as long as it is unassigned. */
  lemma {:induction false} LegacyRunStaysPinned(db: Db, txs: seq<Tx>)
    requires CoreInv(db) && Pinned(db)
    requires forall i :: 0 <= i < |txs| ==> Sound(txs[i]) && Trusted(txs[i])
    ensures CoreInv(Run(db, txs)) && EndsCompleted(Run(db, txs))
    ensures Run(db, txs).deployment == UNASSIGNED ==> Pinned(Run(db, txs))
  {
    hide CoreInv, EndsCompleted, LiveWorkIsFor, Apply, Ingestion.HasActiveProcess, Ingestion.HasOutstanding;
    if txs != [] {
      var before, last := Run(db, txs[..|txs| - 1]), txs[|txs| - 1];
      LegacyRunStaysPinned(db, txs[..|txs| - 1]);
      RunKeepsCore(db, txs);
      EndsStayCompleted(before, last);
      if Run(db, txs).deployment == UNASSIGNED {
        if before.deployment != UNASSIGNED { StaysAssigned(before, last); }
        StaysPinnedExactly(before, last);
        if StrandsWork(before, last) { FirstMove(before, last.target, last.reason); }
      }
    }
  }

  lemma FirstMove(db: Db, target: Deployment, reason: string)
    requires db.deployment == UNASSIGNED != target && ReasonOk(reason)
    ensures Apply(db, Assign(target, reason)) == db.(deployment := target)
  {
    hide Ingestion.HasActiveProcess, Ingestion.HasOutstanding;
  }

  /** The first assignment of a tenant with legacy rows keeps live work pinned in every later run
      exactly when, at that moment, it has no active process and no outstanding delivery: the
      two counts that the code takes of every other tenant. */
  lemma FirstMoveIsSafeExactly(db: Db, txs: seq<Tx>, target: Deployment, reason: string)
    requires CoreInv(db) && Pinned(db)
    requires forall i :: 0 <= i < |txs| ==> Sound(txs[i]) && Trusted(txs[i])
    requires Run(db, txs).deployment == UNASSIGNED != target && ReasonOk(reason)
    ensures var now := Run(db, txs);
            (forall later :: AllTrusted(later) ==> PinInv(Run(Apply(now, Assign(target, reason)), later))) <==>
            !Ingestion.HasActiveProcess(now) && !Ingestion.HasOutstanding(now, UNASSIGNED)
  {
    hide CoreInv, EndsCompleted, LiveWorkIsFor, NothingLive, Apply, Run, Ingestion.HasActiveProcess,
         Ingestion.HasOutstanding;
    var now := Run(db, txs);
    LegacyRunStaysPinned(db, txs);
    FirstMove(now, target, reason);
    GuardFindsLiveWork(now, UNASSIGNED);
    MovingIsSafeExactly(now, target);
    var moved := Apply(now, Assign(target, reason));
    ApplyKeepsCore(now, Assign(target, reason));
    if PinInv(moved) {
      forall later | AllTrusted(later) ensures PinInv(Run(moved, later)) { RunKeepsPins(moved, later); }
    } else {
      assert Run(moved, []) == moved by { NoRun(moved); }
      assert AllTrusted([]);
    }
  }

  ghost predicate AllTrusted(txs: seq<Tx>) {
    forall i :: 0 <= i < |txs| ==> Sound(txs[i]) && Trusted(txs[i])
  }

  lemma NoRun(db: Db)
    ensures Run(db, []) == db
  {}

  /** A legacy process of an unassigned tenant is left behind by the tenant's first move. */
  lemma LegacyProcessIsStranded(definition: Definition)
    ensures var legacy := Process(definition, UNASSIGNED, 0, true, Active, [], Ingestion.Knowledge.Empty, None, [], 0, []);
            var db := NewTenant(0, UNASSIGNED).(processes := map[0 := legacy]);
            Pinned(db) && StrandsWork(db, Assign("blue", "onboarding")) &&
            !Pinned(Apply(db, Assign("blue", "onboarding")))
  {
    var legacy := Process(definition, UNASSIGNED, 0, true, Active, [], Ingestion.Knowledge.Empty, None, [], 0, []);
    var db := NewTenant(0, UNASSIGNED).(processes := map[0 := legacy]);
    assert 0 in db.processes && db.processes[0] == legacy;
    assert UNASSIGNED[0] != "blue"[0];
    assert Pinned(db);
    MovingIsSafeExactly(db, "blue");
    assert IsLive(db, 0);
    FirstMove(db, "blue", "onboarding");
  }
}
