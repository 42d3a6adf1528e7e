/** What a pause stops, over every run until the process is retried or resumed. */
module Pausing {
  import opened Contracts
  import opened Store
  import opened Protocol
  import opened Frames
  import opened Footprints
  import opened CoreInvariant
  import opened Executors
  import Accountability
  import Execution
  import Gateway
  import Guards
  import Histories
  import Processes
  import Reviews

  // -------------------------------------------------------------- the database

  /** A request may at most be told the outcome of an attempt it already had. */
  ghost predicate RequestHeld(db: Db, after: Db, id: Id)
    requires id in db.actions
  {
    && id in after.actions && after.actions[id] == db.actions[id].(status := after.actions[id].status)
    && (KeyOf(id, db.actions[id]) !in db.attempts ==> after.actions[id] == db.actions[id])
  }

  /** The process keeps its row, gains no request, loses none, changes none that has not been
      attempted, and gains no attempt. */
  ghost predicate WorkHeld(db: Db, after: Db, p: Id) {
    && (forall id :: id in db.actions && db.actions[id].process == p ==> RequestHeld(db, after, id))
    && (forall id :: id in after.actions && after.actions[id].process == p ==>
          id in db.actions && db.actions[id].process == p)
    && (forall k: Key :: k.process == p ==> (k in after.attempts <==> k in db.attempts))
  }

  lemma SameWorkIsHeld(db: Db, after: Db, p: Id)
    requires after.actions == db.actions && after.attempts == db.attempts
    ensures WorkHeld(db, after, p)
  {}

  lemma OtherActionHolds(db: Db, after: Db, id: Id, p: Id)
    requires OnlyAction(db, after, id) && db.actions[id].process != p
    ensures WorkHeld(db, after, p)
  {}

  lemma AttemptedActionHolds(db: Db, after: Db, id: Id, p: Id)
    requires OnlyAction(db, after, id) && after.attempts.Keys == db.attempts.Keys
    requires KeyOf(id, db.actions[id]) in db.attempts && after.actions[id].approval == db.actions[id].approval
    ensures WorkHeld(db, after, p)
  {}

  lemma ReviewHolds(db: Db, c: Reviews.ReviewCommand, p: Id)
    requires CoreInv(db) && Guards.IsPaused(db, p)
    ensures var r := Reviews.AppliedReview(db, c); r.Ok? ==> WorkHeld(db, r.value, p)
  {
    hide WorkHeld, OnlyAction, Reviews.Recorded, ActionOk, AttemptOk, CompletionOk;
    var r := Reviews.AppliedReview(db, c);
    SameWorkIsHeld(db, db, p);
    if r.Ok? && c.id !in db.reviews {
      assert c.id !in db.approvals;
      ReviewFrame(db, c);
      OtherActionHolds(db, Reviews.Recorded(db, c), c.thread, p);
      OutboxAside(db, Reviews.Recorded(db, c), r.value, p);
    }
  }

  lemma OutboxAside(db: Db, mid: Db, after: Db, p: Id)
    requires WorkHeld(db, mid, p) && after.actions == mid.actions && after.attempts == mid.attempts
    ensures WorkHeld(db, after, p)
  {}

  lemma ResolutionHolds(db: Db, c: Reviews.ResolveCommand, p: Id)
    requires CoreInv(db)
    ensures var r := Reviews.Resolved(db, c); r.Ok? ==> WorkHeld(db, r.value, p)
  {
    hide WorkHeld, OnlyAction, Reviews.Settled, ActionOk, CompletionOk;
    var r := Reviews.Resolved(db, c);
    SameWorkIsHeld(db, db, p);
    if r.Ok? && c.attempt !in db.resolutions {
      assert AttemptOk(db, c.attempt);
      ResolveFrame(db, c);
      SettledIsAttempted(db, c);
      AttemptedActionHolds(db, Reviews.Settled(db, c), c.attempt.request, p);
      OutboxAside(db, Reviews.Settled(db, c), r.value, p);
    }
  }

  lemma SettledIsAttempted(db: Db, c: Reviews.ResolveCommand)
    requires c.attempt in db.attempts && c.attempt.request in db.actions
    ensures var after := Reviews.Settled(db, c);
            && after.attempts.Keys == db.attempts.Keys && c.attempt.request in after.actions
            && after.actions[c.attempt.request].approval == db.actions[c.attempt.request].approval
  {}

  lemma ReserveHolds(db: Db, release: Deployment, adapter: Id, q: Id, id: Id, revision: nat, p: Id)
    requires Guards.IsPaused(db, p)
    ensures var r := Execution.Reserve(db, release, adapter, q, id, revision); r.Ok? ==> WorkHeld(db, r.value.0, p)
  {
    hide WorkHeld, OnlyAction, Execution.Reserve, Execution.WithBoth, Execution.PolicyRefusal;
    var r := Execution.Reserve(db, release, adapter, q, id, revision);
    SameWorkIsHeld(db, db, p);
    if r.Ok? {
      FinalReserveChangesNothing(db, release, adapter, q, id, revision);
      if !r.value.1.AlreadyFinal? {
        ReserveIsBoth(db, release, adapter, q, id, revision);
        var key := KeyOf(id, db.actions[id]);
        var attempt := if key in db.attempts then db.attempts[key] else Attempt(adapter, Executing, Option.None);
        BothFrame(db, id, Executing, attempt);
        OtherActionHolds(db, r.value.0, id, p);
      }
    }
  }

  lemma ReconcileHolds(db: Db, release: Deployment, q: Id, id: Id, revision: nat, p: Id)
    requires Guards.IsPaused(db, p)
    ensures var r := Execution.StartReconcile(db, release, q, id, revision); r.Ok? ==> WorkHeld(db, r.value.0, p)
  {
    hide WorkHeld, OnlyAction, Execution.StartReconcile, Execution.WithBoth, Execution.PolicyRefusal;
    var r := Execution.StartReconcile(db, release, q, id, revision);
    SameWorkIsHeld(db, db, p);
    if r.Ok? {
      FinalReconcileChangesNothing(db, release, q, id, revision);
      if !r.value.1 {
        ReconcileIsBoth(db, release, q, id, revision);
        BothFrame(db, id, Reconciling, db.attempts[KeyOf(id, db.actions[id])].(status := Reconciling));
        OtherActionHolds(db, r.value.0, id, p);
      }
    }
  }

  lemma RecordHolds(db: Db, key: Key, status: ActionStatus, effect: Option<Effect>, p: Id)
    requires CoreInv(db)
    ensures WorkHeld(db, Execution.Record(db, key, status, effect), p)
  {
    if key in db.attempts && !IsFinal(db.attempts[key].status) {
      hide WorkHeld, OnlyAction, Execution.Record, Execution.WithBoth, ActionOk, CompletionOk;
      assert AttemptOk(db, key);
      RecordIsBoth(db, key, status, effect);
      var attempt := db.attempts[key].(status := status, effect := effect);
      BothFrame(db, key.request, status, attempt);
      BothIsAttempted(db, key.request, status, attempt);
      AttemptedActionHolds(db, Execution.WithBoth(db, key.request, status, attempt), key.request, p);
    } else {
      SameWorkIsHeld(db, db, p);
    }
  }

  lemma BothIsAttempted(db: Db, id: Id, status: ActionStatus, attempt: Attempt)
    requires id in db.actions && KeyOf(id, db.actions[id]) in db.attempts
    ensures var after := Execution.WithBoth(db, id, status, attempt);
            && after.attempts.Keys == db.attempts.Keys && id in after.actions
            && after.actions[id].approval == db.actions[id].approval
  {}

  lemma {:induction false} UpToAddsOwn(db: Db, q: Id, turn: Id, actions: seq<Proposal>, n: nat,
                                       targets: seq<Gateway.Target>, conflicted: set<Payload>,
                                       breakers: Gateway.Breakers, p: Id)
    requires q in db.processes && n <= |actions| && q != p
    ensures var r := Gateway.PersistUpTo(db, q, turn, actions, n, targets, conflicted, breakers);
            r.Ok? ==> WorkHeld(db, r.value, p)
  {
    hide WorkHeld, Gateway.PersistOne, Gateway.Inserted;
    if n == 0 {
      SameWorkIsHeld(db, db, p);
    } else {
      UpToAddsOwn(db, q, turn, actions, n - 1, targets, conflicted, breakers, p);
      var before := Gateway.PersistUpTo(db, q, turn, actions, n - 1, targets, conflicted, breakers);
      var r := Gateway.PersistUpTo(db, q, turn, actions, n, targets, conflicted, breakers);
      if r.Ok? {
        var supersedes := Gateway.Assigned(targets, actions, n)[n - 1];
        Gateway.PersistOneInserts(before.value, q, turn, actions[n - 1], supersedes, conflicted, breakers);
        if (q, turn, actions[n - 1].logicalKey) !in before.value.slots {
          InsertedHolds(db, before.value, q, turn, actions[n - 1], supersedes, p);
        }
      }
    }
  }

  lemma InsertedHolds(db: Db, mid: Db, q: Id, turn: Id, proposal: Proposal, supersedes: Option<Id>, p: Id)
    requires WorkHeld(db, mid, p) && q in mid.processes && q != p && proposal.requestId !in mid.actions
    ensures WorkHeld(db, Gateway.Inserted(mid, q, turn, proposal, supersedes), p)
  {}

  lemma PersistHolds(db: Db, q: Id, turn: Id, d: Decision, breakers: Gateway.Breakers, p: Id)
    requires Guards.IsPaused(db, p)
    ensures var r := Gateway.Persisted(db, q, turn, d, breakers); r.Ok? ==> WorkHeld(db, r.value, p)
  {
    hide WorkHeld, Gateway.PersistUpTo;
    if q == p {
      hide Gateway.Persisted;
      Guards.PausedTakesNothing(db, p, turn, d, breakers);
    } else if Gateway.Closed(db, q, breakers).None? {
      UpToAddsOwn(db, q, turn, d.actions, |d.actions|, Gateway.RevisionTargets(db, q, d.reviewIds),
                  Gateway.ConflictedPayloads(db, q, d.attemptIds), breakers, p);
    }
  }

  lemma TxHolds(db: Db, tx: Tx, p: Id)
    requires CoreInv(db) && Guards.IsPaused(db, p)
    ensures WorkHeld(db, Apply(db, tx), p)
  {
    hide CoreInv, WorkHeld, Gateway.Persisted, Reviews.AppliedReview, Reviews.Resolved, Execution.Reserve,
         Execution.StartReconcile, Execution.Record, ApplyTenant;
    SameWorkIsHeld(db, db, p);
    if OfTenant(tx) {
      TenantTxTouches(db, tx);
      SameWorkIsHeld(db, Apply(db, tx), p);
    } else if OfAction(tx) {
      match tx {
        case ReviewTx(c) => ReviewHolds(db, c, p);
        case Resolve(c) => ResolutionHolds(db, c, p);
        case Reserve(release, adapter, q, id, revision) => ReserveHolds(db, release, adapter, q, id, revision, p);
        case Record(key, status, effect) => RecordHolds(db, key, status, effect, p);
        case Reconcile(release, q, id, revision) => ReconcileHolds(db, release, q, id, revision, p);
      }
    } else if tx.Persist? {
      PersistHolds(db, tx.process, tx.turn, tx.decision, tx.breakers, p);
    } else {
      hide ApplyProcess;
      ProcessTxTouches(db, tx);
      SameWorkIsHeld(db, Apply(db, tx), p);
    }
  }

  // ------------------------------------------------------------------ the world

  /** What a pause holds still: the process, its requests and attempts, and its provider calls. */
  ghost predicate StillPaused(w: World, after: World, p: Id) {
    && Guards.IsPaused(w.db, p) && Guards.RowStays(w.db, after.db, p)
    && WorkHeld(w.db, after.db, p)
    && (forall k: Key :: k.process == p ==> after.calls[k] == w.calls[k] && (k in after.stored <==> k in w.stored))
  }

  ghost predicate Unpaused(step: Step, p: Id) {
    step.Transact? && Guards.Unpauses(step.tx, p)
  }

  /** A crossing calls for its own key only, and only when it is allowed. */
  lemma CrossCallsOwnKey(w: World, x: Id, breakers: Gateway.Breakers, choice: Execution.Choice, k: Key)
    requires x in w.executors
    requires var e := w.executors[x];
             e.key == k ==> Execution.Cross(w.db, e.release, e.process, e.request, e.revision, breakers).Err?
    ensures var after := Crossed(w, x, breakers, choice);
            after.calls[k] == w.calls[k] && (k in after.stored <==> k in w.stored)
  {
    hide Execution.Cross, Execution.Answers, Execution.StatusOf, Execution.EffectOf;
  }

  lemma CrossIsRefused(w: World, x: Id, breakers: Gateway.Breakers, choice: Execution.Choice, p: Id)
    requires x in w.executors && w.executors[x].key.process == w.executors[x].process
    requires Guards.IsPaused(w.db, p)
    ensures var after := Crossed(w, x, breakers, choice);
            && after.db == w.db
            && forall k: Key :: k.process == p ==> after.calls[k] == w.calls[k] && (k in after.stored <==> k in w.stored)
  {
    hide Execution.Cross, Crossed;
    var e := w.executors[x];
    Accountability.CrossTouches(w, x, breakers, choice);
    forall k: Key | k.process == p
      ensures var after := Crossed(w, x, breakers, choice);
              after.calls[k] == w.calls[k] && (k in after.stored <==> k in w.stored)
    {
      if e.key == k { Guards.PausedIsNotExecuted(w.db, p, breakers, e.release, e.adapter, e.request, e.revision); }
      CrossCallsOwnKey(w, x, breakers, choice, k);
    }
  }

  lemma ExecutionCallsNobody(w: World, step: Step, safe: set<Id>)
    requires step.StartExecute? || step.StartReconcile? || step.Finish?
    ensures Next(w, step, safe).calls == w.calls && Next(w, step, safe).stored == w.stored
  {
    hide Execution.Reserve, Execution.StartReconcile, Execution.Record;
  }

  lemma ExecutionHolds(w: World, step: Step, safe: set<Id>, p: Id)
    requires CoreInv(w.db) && Guards.IsPaused(w.db, p)
    requires step.StartExecute? || step.StartReconcile? || step.Finish?
    ensures WorkHeld(w.db, Next(w, step, safe).db, p)
  {
    hide CoreInv, WorkHeld, Execution.Reserve, Execution.StartReconcile, Execution.Record;
    SameWorkIsHeld(w.db, w.db, p);
    match step {
      case StartExecute(_, release, adapter, q, id, revision) => ReserveHolds(w.db, release, adapter, q, id, revision, p);
      case StartReconcile(_, release, q, id, revision) => ReconcileHolds(w.db, release, q, id, revision, p);
      case Finish(x) =>
        if x in w.executors && w.executors[x].pc.Holding? {
          RecordHolds(w.db, w.executors[x].key, w.executors[x].pc.status, w.executors[x].pc.effect, p);
        }
    }
  }

  lemma ExecutionStaysPaused(w: World, step: Step, safe: set<Id>, p: Id)
    requires CoreInv(w.db) && Guards.IsPaused(w.db, p)
    requires step.StartExecute? || step.StartReconcile? || step.Finish?
    ensures StillPaused(w, Next(w, step, safe), p)
  {
    hide CoreInv, WorkHeld, Next;
    ExecutionHolds(w, step, safe, p);
    ExecutionCallsNobody(w, step, safe);
    Accountability.ExecutorsTouch(w, step, safe);
  }

  lemma StepStaysPaused(w: World, step: Step, safe: set<Id>, p: Id)
    requires CoreInv(w.db) && Accountability.NamesRequests(w) && Guards.IsPaused(w.db, p) && !Unpaused(step, p)
    ensures StillPaused(w, Next(w, step, safe), p)
  {
    hide CoreInv, WorkHeld, Started, Reconciled, Crossed, Apply, Execution.Record;
    SameWorkIsHeld(w.db, w.db, p);
    match step {
      case Transact(tx) =>
        Guards.PauseEndsExactly(w.db, tx, p);
        TxHolds(w.db, tx, p);
      case StartExecute(_, _, _, _, _, _) => ExecutionStaysPaused(w, step, safe, p);
      case StartReconcile(_, _, _, _, _) => ExecutionStaysPaused(w, step, safe, p);
      case Finish(_) => ExecutionStaysPaused(w, step, safe, p);
      case Cross(x, breakers, choice) => if x in w.executors { CrossIsRefused(w, x, breakers, choice, p); }
      case Lookup(_, _) =>
      case Crash(_) =>
    }
  }

  lemma HeldTransitively(a: Db, b: Db, c: Db, p: Id)
    requires WorkHeld(a, b, p) && WorkHeld(b, c, p)
    ensures WorkHeld(a, c, p)
  {
    forall id | id in a.actions && a.actions[id].process == p ensures RequestHeld(a, c, id) {
      assert RequestHeld(a, b, id) && RequestHeld(b, c, id);
    }
  }

  /** From a takeover on, over every interleaving of all services with any number of crashing and
      overlapping executors: until a retry or resume command for it, a paused process keeps its
      row, takes no request and no attempt, has none of its unattempted requests reviewed or
      changed, and no provider is called for it, by executors already under way included. */
  lemma {:induction false} PauseStopsCalls(w: World, steps: seq<Step>, safe: set<Id>, p: Id)
    requires CallInv(w, safe) && Accountability.NamesRequests(w) && Guards.IsPaused(w.db, p)
    requires forall i :: 0 <= i < |steps| ==> !Unpaused(steps[i], p)
    ensures StillPaused(w, Runs(w, steps, safe), p)
  {
    hide CoreInv, Attached, MayStillCall, CallsOk, Accountability.NamesRequests, WorkHeld, Next, Unpaused;
    if steps == [] {
      SameWorkIsHeld(w.db, w.db, p);
    } else {
      var n := |steps| - 1;
      var before := Runs(w, steps[..n], safe);
      PauseStopsCalls(w, steps[..n], safe, p);
      RunsKeepCalls(w, steps[..n], safe);
      Accountability.RunsKeepNames(w, steps[..n], safe);
      StepStaysPaused(before, steps[n], safe, p);
      HeldTransitively(w.db, before.db, Runs(w, steps, safe).db, p);
    }
  }
}
