/** State versions, their revisions, and replay of accepted decisions. */
module Histories {
  import opened Contracts
  import opened Store
  import opened Protocol
  import opened Frames
  import opened CoreInvariant
  import Evolution
  import Gateway
  import Reviews
  import Processes
  import Ingestion
  import Execution
  import Transitions
  import Knowledge

  /** Revisions are numbered from one, one a turn and one a decision, and the last of them is
      the state of the process. */
  ghost predicate HistoryOk(process: Process) {
    var h := process.history;
    && |h| == process.stateVersion
    && (forall i :: 0 <= i < |h| ==> h[i].version == i + 1)
    && (forall i, j :: 0 <= i < j < |h| ==> h[i].turn != h[j].turn && h[i].decision != h[j].decision)
    && (if h == [] then process.facts == Knowledge.Empty && process.summary == None && process.commitments == []
        else
          var last := h[|h| - 1];
          process.facts == last.facts && process.summary == last.summary && process.commitments == last.commitments)
  }

  ghost predicate HistoryInv(db: Db) {
    forall p :: p in db.processes ==> HistoryOk(db.processes[p])
  }

  predicate SameState(a: Process, b: Process) {
    b == a.(status := b.status, wakes := b.wakes)
  }

  lemma AdvanceKeepsHistory(process: Process, turn: Id, d: Decision, facts: Knowledge.Projection,
                            status: ProcessStatus, wakes: seq<Wake>)
    requires HistoryOk(process)
    requires !Processes.UsesTurn(process.history, turn) && !Processes.UsesDecision(process.history, d.id)
    ensures HistoryOk(Processes.Advanced(process, turn, d, facts, status, wakes))
  {
    var after := Processes.Advanced(process, turn, d, facts, status, wakes);
    forall i, j | 0 <= i < j < |after.history|
      ensures after.history[i].turn != after.history[j].turn && after.history[i].decision != after.history[j].decision
    {
      assert after.history[i] == process.history[i];
      if j < |process.history| { assert after.history[j] == process.history[j]; }
    }
  }

  /** A decision either replays a turn, changing nothing, or advances the process by one version. */
  lemma DecideAdvances(db: Db, p: Id, turn: Id, d: Decision, limits: Processes.Limits)
    requires Processes.Decided(db, p, turn, d, limits).Ok?
    ensures p in db.processes
    ensures var after := Processes.Decided(db, p, turn, d, limits).value;
            if Processes.UsesTurn(db.processes[p].history, turn) then after == db
            else
              && !Processes.UsesDecision(db.processes[p].history, d.id)
              && exists facts, status, wakes ::
                   after.processes == db.processes[p := Processes.Advanced(db.processes[p], turn, d, facts, status, wakes)]
  {
    hide Processes.Advanced, Transitions.NextStatus, Transitions.EffectiveWakes;
  }

  lemma DecideKeepsHistory(db: Db, p: Id, turn: Id, d: Decision, limits: Processes.Limits)
    requires HistoryInv(db)
    ensures var r := Processes.Decided(db, p, turn, d, limits); r.Ok? ==> HistoryInv(r.value)
  {
    hide Processes.Decided, Processes.Advanced, HistoryOk;
    var r := Processes.Decided(db, p, turn, d, limits);
    if r.Ok? {
      DecideAdvances(db, p, turn, d, limits);
      if !Processes.UsesTurn(db.processes[p].history, turn) {
        var facts, status, wakes :|
          r.value.processes == db.processes[p := Processes.Advanced(db.processes[p], turn, d, facts, status, wakes)];
        AdvanceKeepsHistory(db.processes[p], turn, d, facts, status, wakes);
      }
    }
  }

  lemma InterveneKeepsHistory(db: Db, p: Id, turn: Id)
    requires HistoryInv(db)
    ensures var r := Processes.Intervened(db, p, turn); r.Ok? ==> HistoryInv(r.value)
  {}

  lemma ControlledKeepsHistory(process: Process, kind: ControlKind)
    requires HistoryOk(process)
    ensures HistoryOk(Processes.Controlled(process, kind))
  {}

  lemma ControlKeepsHistory(db: Db, c: Processes.ControlCommand, eventId: Id)
    requires HistoryInv(db)
    ensures var r := Processes.Commanded(db, c, eventId); r.Ok? ==> HistoryInv(r.value)
  {
    hide HistoryOk, Processes.ControlRefusal, Processes.Carried;
    if Processes.ControlRefusal(db, c, eventId).None? {
      ControlTargets(db, c, eventId);
      CarriedProcesses(db, c, eventId);
      ControlledKeepsHistory(db.processes[c.process], c.kind);
    }
  }

  lemma CarriedProcesses(db: Db, c: Processes.ControlCommand, eventId: Id)
    requires c.process in db.processes && (c.kind.Retry? ==> c.intervention.Some?)
    ensures Processes.Carried(db, c, eventId).processes ==
            db.processes[c.process := Processes.Controlled(db.processes[c.process], c.kind)]
  {
    hide Processes.Controlled, Enqueued, Processes.Woken;
    WokenFrame(Processes.Obeyed(db, c), c, eventId);
  }

  lemma IngestKeepsHistory(db: Db, e: Event, bootstrap: Option<Ingestion.Bootstrap>, ingress: Option<Deployment>,
                           newId: Id)
    requires HistoryInv(db)
    ensures var r := Ingestion.Ingested(db, e, bootstrap, ingress, newId); r.Ok? ==> HistoryInv(r.value)
  {
    hide Ingestion.IngestRefusal, Ingestion.Admitted, Ingestion.FinalMatch;
    if Ingestion.IngestRefusal(db, e, bootstrap, newId).None? { IngestFrame(db, e, bootstrap, newId); }
  }

  /** No other transaction touches a process's facts, memory or history. */
  lemma OthersKeepProcesses(db: Db, tx: Tx)
    requires tx.Unpark? || tx.Persist?
    ensures ApplyProcess(db, tx).processes == db.processes
  {
    hide Ingestion.QuarantineRefusal, Gateway.PersistUpTo, Ingestion.Bound, Enqueued;
  }

  lemma ActionTxKeepsProcesses(db: Db, tx: Tx)
    requires OfAction(tx)
    ensures ApplyAction(db, tx).processes == db.processes
  {
    hide Execution.Reserve, Execution.Record, Execution.StartReconcile, Reviews.Reviewed, Reviews.Decisions,
         Reviews.ResolvedAttempt, Enqueued, Reviews.ResolutionError, Reviews.TargetError, Reviews.PendingError;
    match tx {
      case Reserve(release, adapter, p, id, revision) => ReserveTouches(db, release, adapter, p, id, revision);
      case Record(key, status, effect) => RecordTouches(db, key, status, effect);
      case Reconcile(release, p, id, revision) => ReconcileTouches(db, release, p, id, revision);
      case ReviewTx(c) => ReviewKeepsProcesses(db, c);
      case Resolve(c) => ResolveKeepsProcesses(db, c);
    }
  }

  lemma ReviewKeepsProcesses(db: Db, c: Reviews.ReviewCommand)
    ensures var r := Reviews.AppliedReview(db, c); r.Ok? ==> r.value.processes == db.processes
  {
    hide Reviews.Reviewed, Reviews.Decisions, Enqueued;
  }

  lemma ResolveKeepsProcesses(db: Db, c: Reviews.ResolveCommand)
    ensures var r := Reviews.Resolved(db, c); r.Ok? ==> r.value.processes == db.processes
  {
    hide Reviews.ResolvedAttempt, Enqueued;
  }

  lemma ProcessTxKeepsHistory(db: Db, tx: Tx)
    requires HistoryInv(db) && !OfTenant(tx) && !OfAction(tx)
    ensures HistoryInv(ApplyProcess(db, tx))
  {
    if tx.Unpark? || tx.Persist? {
      hide ApplyProcess, HistoryOk;
      OthersKeepProcesses(db, tx);
    } else {
      hide HistoryInv, Ingestion.Ingested, Processes.Decided, Processes.Intervened, Processes.Commanded;
      match tx {
        case Ingest(e, bootstrap, ingress, newId) => IngestKeepsHistory(db, e, bootstrap, ingress, newId);
        case Decide(p, turn, d, limits) => DecideKeepsHistory(db, p, turn, d, limits);
        case Intervene(p, turn) => InterveneKeepsHistory(db, p, turn);
        case ControlTx(c, eventId) => ControlKeepsHistory(db, c, eventId);
      }
    }
  }

  lemma TenantTxKeepsProcesses(db: Db, tx: Tx)
    requires OfTenant(tx)
    ensures ApplyTenant(db, tx).processes == db.processes
  {
    hide Ingestion.Moved, RowsEvolve;
    match tx {
      case Tick(_) =>
      case SetActive(_) =>
      case Assign(target, reason) => MoveKeepsProcesses(db, target, reason);
      case Dispatch(_) =>
    }
  }

  lemma MoveKeepsProcesses(db: Db, target: Deployment, reason: string)
    ensures var r := Ingestion.Moved(db, target, reason); r.Ok? ==> r.value.processes == db.processes
  {
    hide Ingestion.HasActiveProcess, Ingestion.HasOutstanding;
  }

  lemma ApplyKeepsHistory(db: Db, tx: Tx)
    requires HistoryInv(db)
    ensures HistoryInv(Apply(db, tx))
  {
    hide HistoryOk, ApplyTenant, ApplyAction, ApplyProcess;
    if OfTenant(tx) {
      TenantTxKeepsProcesses(db, tx);
    } else if OfAction(tx) {
      ActionTxKeepsProcesses(db, tx);
    } else {
      ProcessTxKeepsHistory(db, tx);
    }
  }

  lemma {:induction false} RunKeepsHistory(db: Db, txs: seq<Tx>)
    requires HistoryInv(db)
    ensures HistoryInv(Run(db, txs))
  {
    hide HistoryInv, Apply;
    if txs != [] {
      RunKeepsHistory(db, txs[..|txs| - 1]);
      ApplyKeepsHistory(Run(db, txs[..|txs| - 1]), txs[|txs| - 1]);
    }
  }

  // ----------------------------------------------------------------- replay

  lemma DecidedUsesTurn(db: Db, p: Id, turn: Id, d: Decision, limits: Processes.Limits)
    requires Processes.Decided(db, p, turn, d, limits).Ok?
    ensures var after := Processes.Decided(db, p, turn, d, limits).value;
            p in after.processes && Processes.IsReplay(after.processes[p].history, turn, d.id)
  {
    hide Transitions.NextStatus, Transitions.EffectiveWakes;
    var after := Processes.Decided(db, p, turn, d, limits).value;
    if !Processes.UsesTurn(db.processes[p].history, turn) {
      var h := after.processes[p].history;
      assert h[|h| - 1].turn == turn && h[|h| - 1].decision == d.id;
    }
  }

  /** Replaying an accepted decision, at any later time of any run, is accepted and changes
      nothing; the same turn with another decision is refused. */
  lemma DecisionReplays(db: Db, p: Id, turn: Id, d: Decision, limits: Processes.Limits, txs: seq<Tx>, other: Decision)
    requires CoreInv(db) && HistoryInv(db) && Processes.Decided(db, p, turn, d, limits).Ok?
    requires forall i :: 0 <= i < |txs| ==> Sound(txs[i])
    ensures var later := Run(Processes.Decided(db, p, turn, d, limits).value, txs);
            Processes.Decided(later, p, turn, other, limits) ==
              if other.id == d.id then Ok(later) else Err(Processes.TurnReused)
  {
    var after := Processes.Decided(db, p, turn, d, limits).value;
    DecideKeepsCore(db, p, turn, d, limits);
    DecideKeepsHistory(db, p, turn, d, limits);
    DecidedUsesTurn(db, p, turn, d, limits);
    Evolution.RunEvolves(after, txs);
    RunKeepsHistory(after, txs);
    ReplayAnswers(after, Run(after, txs), p, turn, d, other, limits);
  }

  lemma ReplayAnswers(after: Db, later: Db, p: Id, turn: Id, d: Decision, other: Decision, limits: Processes.Limits)
    requires p in after.processes && p in later.processes
    requires after.processes[p].history <= later.processes[p].history && HistoryOk(later.processes[p])
    requires Processes.IsReplay(after.processes[p].history, turn, d.id)
    ensures Processes.Decided(later, p, turn, other, limits) ==
            if other.id == d.id then Ok(later) else Err(Processes.TurnReused)
  {
    hide Processes.EventsAvailable, Processes.AttemptsAvailable, Processes.Advanced, Transitions.NextStatus,
         Transitions.EffectiveWakes, Knowledge.Project;
    var h := later.processes[p].history;
    var i :| 0 <= i < |after.processes[p].history| && after.processes[p].history[i].turn == turn &&
             after.processes[p].history[i].decision == d.id;
    assert h[i] == after.processes[p].history[i];
    assert Processes.UsesTurn(h, turn);
  }

  /** The gateway never adds a row for a decision it accepted before, at any later time, under
      any breakers and review state. */
  lemma GatewayReplayAddsNothing(db: Db, p: Id, turn: Id, d: Decision, breakers: Gateway.Breakers, txs: seq<Tx>,
                                 laterBreakers: Gateway.Breakers)
    requires CoreInv(db) && Gateway.Persisted(db, p, turn, d, breakers).Ok?
    requires forall i :: 0 <= i < |txs| ==> Sound(txs[i])
    ensures var later := Run(Gateway.Persisted(db, p, turn, d, breakers).value, txs);
            var again := Gateway.Persisted(later, p, turn, d, laterBreakers);
            again.Ok? ==> again.value == later
  {
    hide CoreInv, Gateway.PersistUpTo, Run;
    var after := Gateway.Persisted(db, p, turn, d, breakers).value;
    PersistKeepsCore(db, p, turn, d, breakers);
    Gateway.PersistedIsStored(db, p, turn, d, breakers);
    Evolution.RunEvolves(after, txs);
    var later := Run(after, txs);
    assert Gateway.Stored(later, p, turn, d.actions);
    if Gateway.Closed(later, p, laterBreakers).None? {
      Gateway.ReplayAddsNothing(later, p, turn, d.actions, |d.actions|, Gateway.RevisionTargets(later, p, d.reviewIds),
                                Gateway.ConflictedPayloads(later, p, d.attemptIds), laterBreakers);
    }
  }

  // ------------------------------------------------------------------- wakes

  /** After a validated decision was applied, the process is terminal, has an open action or a
      wake condition, except exactly when an active decision proposed actions, named no wake,
      and no request of the process is open. */
  lemma DecidedProcessCanWake(db: Db, p: Id, turn: Id, d: Decision, limits: Processes.Limits,
                              policy: Transitions.DecisionPolicy, wakeSources: Transitions.Turn,
                              conflicted: set<Payload>, evidence: Transitions.Evidence)
    requires p in db.processes && !Processes.UsesTurn(db.processes[p].history, turn)
    requires Processes.Decided(db, p, turn, d, limits).Ok?
    requires Transitions.WellTyped(d) && Transitions.Valid(d, policy, wakeSources, conflicted, evidence)
    ensures p in Processes.Decided(db, p, turn, d, limits).value.processes
    ensures var after := Processes.Decided(db, p, turn, d, limits).value;
            var process, open := after.processes[p], OpenActions(after.actions, p);
            (IsTerminal(process.status) || open != map[] || process.wakes != []) <==>
            !(d.status.DecideActive? && d.actions != [] && d.wakes == [] && open == map[])
  {
    hide Transitions.NextStatus, Transitions.EffectiveWakes, Transitions.Valid;
    var after := Processes.Decided(db, p, turn, d, limits).value;
    Transitions.WakeExactly(d, policy, wakeSources, conflicted, evidence, OpenActions(db.actions, p),
                            db.processes[p].definition.mayComplete, after.processes[p].facts.authoritative,
                            db.processes[p].definition.requirements);
  }
}
