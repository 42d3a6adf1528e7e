/** The guarantees of the durable protocol over whole runs. */
module Theorems {
  import opened Contracts
  import opened Store
  import opened Protocol
  import opened CoreInvariant
  import opened Evolution
  import opened Executors
  import Correlations
  import Execution
  import Frames
  import Guards
  import Histories
  import Ingestion
  import MessageBudget
  import Outbox
  import Pinning
  import Spacing
  import Transitions

  // ------------------------------------------------------------- a new tenant

  /** A fresh tenant satisfies every invariant, so they hold in all of its runs. */
  lemma NewTenantIsOk(clock: int, deployment: Deployment)
    ensures var db := NewTenant(clock, deployment);
            CoreInv(db) && Histories.HistoryInv(db) && Correlations.MailInv(db) &&
            MessageBudget.BudgetInv(db) && Spacing.SpacingInv(db) && Pinning.PinInv(db) && db.active
  {}

  // ------------------------------------------------------------- completion

  /** Nothing is open and the requirements hold. */
  ghost predicate Done(db: Db, p: Id) {
    && p in db.processes && db.processes[p].status.Completed?
    && Transitions.Satisfied(db.processes[p].facts.authoritative, db.processes[p].definition.requirements)
    && forall id :: id in db.actions && db.actions[id].process == p ==> !IsOpen(db.actions[id].status)
  }

  lemma NextEvolves(w: World, step: Step, safe: set<Id>)
    requires CoreInv(w.db)
    ensures Keeps(w.db, Next(w, step, safe).db)
  {
    hide CoreInv, Keeps, Apply, Execution.Reserve, Execution.StartReconcile, Execution.Record, Execution.Cross;
    NothingEvolves(w.db);
    match step {
      case Transact(tx) => ApplyEvolves(w.db, tx);
      case StartExecute(_, release, adapter, p, id, revision) => ReserveEvolves(w.db, release, adapter, p, id, revision);
      case StartReconcile(_, release, p, id, revision) => ReconcileEvolves(w.db, release, p, id, revision);
      case Finish(x) =>
        if x in w.executors && w.executors[x].pc.Holding? {
          RecordEvolves(w.db, w.executors[x].key, w.executors[x].pc.status, w.executors[x].pc.effect);
        }
      case Lookup(_, _) =>
      case Cross(_, _, _) =>
      case Crash(_) =>
    }
  }

  lemma {:induction false} RunsEvolve(w: World, steps: seq<Step>, safe: set<Id>)
    requires CallInv(w, safe)
    ensures Keeps(w.db, Runs(w, steps, safe).db) && CoreInv(Runs(w, steps, safe).db)
  {
    hide CoreInv, Keeps, Next, Attached, MayStillCall, CallsOk;
    if steps == [] {
      NothingEvolves(w.db);
    } else {
      var before := Runs(w, steps[..|steps| - 1], safe);
      RunsEvolve(w, steps[..|steps| - 1], safe);
      RunsKeepCalls(w, steps[..|steps| - 1], safe);
      NextEvolves(before, steps[|steps| - 1], safe);
      KeepsTrans(w.db, before.db, Runs(w, steps, safe).db);
      RunsKeepCalls(w, steps, safe);
    }
  }

  /** Over every interleaving of all services with any number of crashing and overlapping
      executors: a completed process stays exactly as it is, its completion requirements hold
      in its authoritative facts, and it never has an open request again. */
  lemma CompletedIsForever(w: World, steps: seq<Step>, safe: set<Id>, p: Id)
    requires CallInv(w, safe) && p in w.db.processes && w.db.processes[p].status.Completed?
    ensures var now := Runs(w, steps, safe).db;
            Done(now, p) && now.processes[p] == w.db.processes[p]
  {
    hide CallInv, ActionOk, AttemptOk, WorkKeeps, MailKeeps, Runs;
    RunsEvolve(w, steps, safe);
    assert CompletionOk(Runs(w, steps, safe).db, p);
  }

  // ------------------------------------------------- requests and attempts

  /** A terminal attempt never changes, and its request carries the same status for ever. */
  lemma TerminalAttemptIsForever(w: World, steps: seq<Step>, safe: set<Id>, k: Key)
    requires CallInv(w, safe) && k in w.db.attempts && IsFinal(w.db.attempts[k].status)
    ensures var now := Runs(w, steps, safe).db;
            && k in now.attempts && now.attempts[k] == w.db.attempts[k]
            && k.request in now.actions && now.actions[k.request].status == w.db.attempts[k].status
  {
    hide CallInv, MailKeeps, ProcessesKeep, Runs, CompletionOk;
    RunsEvolve(w, steps, safe);
    var now := Runs(w, steps, safe).db;
    assert AttemptOk(now, k) && ActionOk(now, k.request);
  }

  /** Denied, rejected and superseded requests stay that way and never get an attempt. */
  lemma RefusedNeverRuns(w: World, steps: seq<Step>, safe: set<Id>, id: Id)
    requires CallInv(w, safe) && id in w.db.actions && w.db.actions[id].status in {Denied, Rejected, Superseded}
    ensures var now := Runs(w, steps, safe).db;
            && id in now.actions && now.actions[id].status == w.db.actions[id].status
            && KeyOf(id, now.actions[id]) !in now.attempts
  {
    hide CallInv, MailKeeps, ProcessesKeep, Runs, CompletionOk, AttemptOk, Execution.HasGrant;
    RunsEvolve(w, steps, safe);
    assert ActionOk(Runs(w, steps, safe).db, id);
  }

  /** In every reachable state an attempt and its request are coupled: terminal attempts share
      the status, others are in flight together, and an attempt under required approval has an
      immutable grant of exactly its payload. */
  lemma AttemptsAreCoupled(w: World, steps: seq<Step>, safe: set<Id>, k: Key)
    requires CallInv(w, safe) && k in Runs(w, steps, safe).db.attempts
    ensures var now := Runs(w, steps, safe).db;
            && k.request in now.actions && k == KeyOf(k.request, now.actions[k.request])
            && Coupled(now.actions[k.request].status, now.attempts[k].status)
            && !now.actions[k.request].outcome.Deny?
            && (now.actions[k.request].outcome.RequireApproval? ==>
                  Execution.HasGrant(now.approvals, k.request, k.payload))
  {
    hide CallInv, Keeps, Runs, CompletionOk;
    RunsEvolve(w, steps, safe);
    var now := Runs(w, steps, safe).db;
    assert AttemptOk(now, k) && ActionOk(now, k.request);
  }

  // ------------------------------------------------------------ correlation

  lemma {:induction false} RunKeepsMail(db: Db, txs: seq<Tx>)
    requires CoreInv(db) && Correlations.MailInv(db) && forall i :: 0 <= i < |txs| ==> Sound(txs[i])
    ensures Correlations.MailInv(Run(db, txs))
  {
    hide CoreInv, Correlations.MailInv, Apply;
    if txs != [] {
      RunKeepsMail(db, txs[..|txs| - 1]);
      RunKeepsCore(db, txs[..|txs| - 1]);
      Correlations.ApplyKeepsMailInv(Run(db, txs[..|txs| - 1]), txs[|txs| - 1]);
    }
  }

  /** An external reference never changes its owner. */
  lemma OwnersAreForever(db: Db, txs: seq<Tx>, r: Reference)
    requires CoreInv(db) && forall i :: 0 <= i < |txs| ==> Sound(txs[i])
    requires r in db.owners
    ensures r in Run(db, txs).owners && Run(db, txs).owners[r] == db.owners[r]
  {
    hide CoreInv, Run;
    RunEvolves(db, txs);
  }

  /** Once a source event was accepted, every later event with its source identity, whatever it
      says, leaves the database unchanged. */
  lemma ReingestChangesNothing(db: Db, e: Event, bootstrap: Option<Ingestion.Bootstrap>, ingress: Option<Deployment>,
                               newId: Id, txs: seq<Tx>, again: Tx)
    requires CoreInv(db) && forall i :: 0 <= i < |txs| ==> Sound(txs[i])
    requires Ingestion.Ingested(db, e, bootstrap, ingress, newId).Ok?
    requires again.Ingest? && again.event.source == e.source && again.event.sourceId == e.sourceId
    ensures var later := Run(Ingestion.Ingested(db, e, bootstrap, ingress, newId).value, txs);
            Apply(later, again) == later
  {
    hide CoreInv, Run, Ingestion.Ingested, Apply, WorkKeeps, ProcessesKeep;
    var after := Ingestion.Ingested(db, e, bootstrap, ingress, newId).value;
    IngestKeepsCore(db, e, bootstrap, ingress, newId);
    AcceptedIsKnown(db, e, bootstrap, ingress, newId);
    RunEvolves(after, txs);
    KnownChangesNothing(Run(after, txs), again);
  }

  lemma AcceptedIsKnown(db: Db, e: Event, bootstrap: Option<Ingestion.Bootstrap>, ingress: Option<Deployment>,
                        newId: Id)
    ensures var r := Ingestion.Ingested(db, e, bootstrap, ingress, newId);
            r.Ok? ==> (e.source, e.sourceId) in r.value.sources
  {
    hide Ingestion.IngestRefusal, Ingestion.FinalMatch, Ingestion.Correlated, Ingestion.Scheduled;
  }

  lemma KnownChangesNothing(db: Db, tx: Tx)
    requires tx.Ingest? && (tx.event.source, tx.event.sourceId) in db.sources
    ensures Apply(db, tx) == db
  {
    hide Ingestion.IngestRefusal, Ingestion.Admitted;
  }

  ghost predicate Delivered(db: Db, e: Id, k: Outbox.DedupKey, p: Id) {
    k in db.outbox && db.outbox[k].cause == Some(e) && db.outbox[k].process == p
  }

  /** In every reachable state an event has a delivery exactly when it is matched and not
      record-only; the delivery is to the workflow of its process and there is only one. */
  lemma DeliveredExactlyOnce(db: Db, txs: seq<Tx>, e: Id)
    requires CoreInv(db) && Correlations.MailInv(db) && forall i :: 0 <= i < |txs| ==> Sound(txs[i])
    requires e in Run(db, txs).inbox
    ensures var now := Run(db, txs);
            var row := now.inbox[e];
            && ((row.status.Matched? && !row.reason.TerminalRecordOnly?) <==> exists k, p :: Delivered(now, e, k, p))
            && (forall j, k, p: Id, q: Id | Delivered(now, e, j, p) && Delivered(now, e, k, q) ::
                  j == k && p == q && row.process == Some(p))
  {
    hide CoreInv, Run;
    RunKeepsMail(db, txs);
    var now := Run(db, txs);
    if Ingestion.Delivers(now.inbox[e]) {
      assert Correlations.HasDelivery(now, e, now.inbox[e].process.value);
      var k :| k in now.outbox && now.outbox[k].cause == Some(e) && now.outbox[k].process == now.inbox[e].process.value;
      assert Delivered(now, e, k, now.inbox[e].process.value);
    }
  }

  /** Whether a correlated event is delivered is decided when it is ingested: at every later time
      of every run it has its one delivery exactly when its process was not terminal then. */
  lemma DeliveryIsDecidedAtIngest(db: Db, e: Event, bootstrap: Option<Ingestion.Bootstrap>, ingress: Option<Deployment>,
                                  newId: Id, txs: seq<Tx>)
    requires CoreInv(db) && Correlations.MailInv(db) && forall i :: 0 <= i < |txs| ==> Sound(txs[i])
    requires Ingestion.Ingested(db, e, bootstrap, ingress, newId).Ok? && (e.source, e.sourceId) !in db.sources
    ensures var after := Ingestion.Ingested(db, e, bootstrap, ingress, newId).value;
            e.id in after.inbox &&
            var row := after.inbox[e.id];
            row.status.Matched? ==>
              row.process.Some? && row.process.value in after.processes &&
              ((exists k :: Delivered(Run(after, txs), e.id, k, row.process.value)) <==>
               !IsTerminal(after.processes[row.process.value].status))
  {
    hide CoreInv, Correlations.MailInv, Run, Ingestion.Ingested, WorkKeeps, ProcessesKeep;
    var after := Ingestion.Ingested(db, e, bootstrap, ingress, newId).value;
    IngestKeepsCore(db, e, bootstrap, ingress, newId);
    IngestedKeepsMail(db, e, bootstrap, ingress, newId);
    IngestedRow(db, e, bootstrap, ingress, newId);
    RunEvolves(after, txs);
    var row := after.inbox[e.id];
    if row.status.Matched? {
      DeliveredExactlyOnce(after, txs, e.id);
      if k, p :| Delivered(Run(after, txs), e.id, k, p) {
        assert Delivered(Run(after, txs), e.id, k, row.process.value);
      }
    }
  }

  lemma IngestedKeepsMail(db: Db, e: Event, bootstrap: Option<Ingestion.Bootstrap>, ingress: Option<Deployment>,
                          newId: Id)
    requires CoreInv(db) && Correlations.MailInv(db) && Ingestion.Ingested(db, e, bootstrap, ingress, newId).Ok?
    ensures Correlations.MailInv(Ingestion.Ingested(db, e, bootstrap, ingress, newId).value)
  {
    hide CoreInv, Correlations.MailInv, Ingestion.Ingested;
    Correlations.ApplyKeepsMailInv(db, Ingest(e, bootstrap, ingress, newId));
  }

  lemma IngestedRow(db: Db, e: Event, bootstrap: Option<Ingestion.Bootstrap>, ingress: Option<Deployment>, newId: Id)
    requires Correlations.MailInv(db) && Ingestion.Ingested(db, e, bootstrap, ingress, newId).Ok?
    requires (e.source, e.sourceId) !in db.sources
    ensures var after := Ingestion.Ingested(db, e, bootstrap, ingress, newId).value;
            e.id in after.inbox &&
            var row := after.inbox[e.id];
            row.status.Matched? ==>
              row.process.Some? && row.process.value in after.processes &&
              (row.reason.TerminalRecordOnly? <==> IsTerminal(after.processes[row.process.value].status))
  {
    hide Ingestion.Admitted, Ingestion.FinalMatch, Ingestion.Bound;
    FreshEventHasNoDelivery(db, e, bootstrap, newId);
    Guards.IngestSchedulesExactly(db, e, bootstrap, newId);
  }

  lemma FreshEventHasNoDelivery(db: Db, e: Event, bootstrap: Option<Ingestion.Bootstrap>, newId: Id)
    requires Correlations.MailInv(db) && Ingestion.IngestRefusal(db, e, bootstrap, newId).None?
    ensures Outbox.EventKey(e.id) !in db.outbox
  {
    hide Ingestion.FinalMatch, Ingestion.Bound;
  }

  /** Whatever the event: correlation never picks a process that does not own every owned
      reference, so the ownership error of ingestion is unreachable. */
  lemma OwnershipNeverChangesInIngest(db: Db, e: Event, bootstrap: Option<Ingestion.Bootstrap>,
                                      ingress: Option<Deployment>, newId: Id)
    ensures Ingestion.Ingested(db, e, bootstrap, ingress, newId) != Err(Ingestion.OwnershipChanged)
  {
    hide Ingestion.Admitted;
    var m := Ingestion.FinalMatch(db, e, bootstrap, newId);
    if m.status.Matched? {
      Frames.MatchShape(db, e, bootstrap, newId);
      Ingestion.MatchOwnsReferences(db, e, bootstrap, newId);
    }
  }
}
