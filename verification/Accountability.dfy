/** Every provider call of a run goes back to an authorization and, where one is required, to a
    person's approval of exactly its payload. */
module Accountability {
  import opened Contracts
  import opened Store
  import opened Protocol
  import opened Frames
  import opened Footprints
  import opened CoreInvariant
  import opened Executors
  import Execution
  import Gateway
  import Guards
  import Reviews

  // ------------------------------------------------------ executors and keys

  /** The key an executor works on belongs to its request and process. */
  ghost predicate NamesRequests(w: World) {
    forall x :: x in w.executors ==>
      w.executors[x].key.request == w.executors[x].request && w.executors[x].key.process == w.executors[x].process
  }

  lemma StartKeepsNames(w: World, step: Step)
    requires NamesRequests(w) && step.StartExecute?
    ensures NamesRequests(Started(w, step))
  {
    hide Execution.Reserve, Execution.PolicyRefusal;
    var r := Execution.Reserve(w.db, step.release, step.adapter, step.process, step.request, step.revision);
    if r.Ok? && !r.value.1.AlreadyFinal? {
      ReserveIsBoth(w.db, step.release, step.adapter, step.process, step.request, step.revision);
    }
  }

  lemma ReconcileKeepsNames(w: World, step: Step)
    requires NamesRequests(w) && step.StartReconcile?
    ensures NamesRequests(Reconciled(w, step))
  {
    hide Execution.StartReconcile, Execution.PolicyRefusal;
    var r := Execution.StartReconcile(w.db, step.release, step.process, step.request, step.revision);
    if r.Ok? && !r.value.1 {
      ReconcileIsBoth(w.db, step.release, step.process, step.request, step.revision);
    }
  }

  lemma PlacedKeepsNames(w: World, after: World, x: Id, pc: Pc)
    requires NamesRequests(w) && x in w.executors && after.executors == Placed(w, x, pc).executors
    ensures NamesRequests(after)
  {}

  lemma CrossKeepsNames(w: World, x: Id, breakers: Gateway.Breakers, choice: Execution.Choice)
    requires NamesRequests(w) && x in w.executors
    ensures NamesRequests(Crossed(w, x, breakers, choice))
  {
    hide NamesRequests, Execution.Cross;
    PlacedKeepsNames(w, Crossed(w, x, breakers, choice), x, Crossed(w, x, breakers, choice).executors[x].pc);
  }

  lemma StepKeepsNames(w: World, step: Step, safe: set<Id>)
    requires NamesRequests(w)
    ensures NamesRequests(Next(w, step, safe))
  {
    hide NamesRequests, Started, Reconciled, Crossed, Apply, Execution.Record;
    match step {
      case StartExecute(_, _, _, _, _, _) => StartKeepsNames(w, step);
      case StartReconcile(_, _, _, _, _) => ReconcileKeepsNames(w, step);
      case Cross(x, breakers, choice) => if x in w.executors { CrossKeepsNames(w, x, breakers, choice); }
      case Transact(tx) => SameExecutorsKeepNames(w, Next(w, step, safe));
      case Lookup(x, answer) =>
        if x in w.executors {
          PlacedKeepsNames(w, Placed(w, x, AfterLookup(w.executors[x], answer, safe)), x,
                           AfterLookup(w.executors[x], answer, safe));
        }
      case Finish(x) => if x in w.executors { PlacedKeepsNames(w, Next(w, step, safe), x, Next(w, step, safe).executors[x].pc); }
      case Crash(x) => if x in w.executors { PlacedKeepsNames(w, Placed(w, x, Done), x, Done); }
    }
  }

  lemma SameExecutorsKeepNames(w: World, after: World)
    requires NamesRequests(w) && after.executors == w.executors
    ensures NamesRequests(after)
  {}

  lemma {:induction false} RunsKeepNames(w: World, steps: seq<Step>, safe: set<Id>)
    requires NamesRequests(w)
    ensures NamesRequests(Runs(w, steps, safe))
  {
    hide NamesRequests, Next;
    if steps != [] {
      RunsKeepNames(w, steps[..|steps| - 1], safe);
      StepKeepsNames(Runs(w, steps[..|steps| - 1], safe), steps[|steps| - 1], safe);
    }
  }

  // ------------------------------------------------------------------ calls

  /** The step calls the provider for the key: at that moment the request of the key is
      authorized, it stores exactly the payload of the key, and no breaker is open for it. */
  ghost predicate CalledAt(w: World, step: Step, k: Key) {
    && step.Cross? && step.x in w.executors && w.executors[step.x].key == k
    && Guards.Authorized(w.db, w.executors[step.x].release, k.process, k.request)
    && !Execution.BreakerStops(w.db, k.process, k.request, step.breakers)
    && w.db.actions[k.request].payload == k.payload
  }

  lemma CallIsAuthorized(w: World, step: Step, safe: set<Id>, k: Key)
    requires CallInv(w, safe) && NamesRequests(w) && Next(w, step, safe).calls[k] > w.calls[k]
    ensures CalledAt(w, step, k)
  {
    hide Next, Guards.Authorized, Execution.BreakerStops, ActionOk, CompletionOk, MayStillCall, CallsOk;
    Guards.CallsAreAuthorized(w, step, safe);
    var e := w.executors[step.x];
    assert Attached(w, step.x);
    assert AttemptOk(w.db, e.key);
    AuthorizedIsStored(w.db, e.release, e.process, e.request);
  }

  lemma AuthorizedIsStored(db: Db, release: Deployment, p: Id, id: Id)
    requires Guards.Authorized(db, release, p, id)
    ensures p in db.processes && id in db.actions
  {}

  ghost predicate CalledIn(w: World, steps: seq<Step>, safe: set<Id>, i: int, k: Key) {
    0 <= i < |steps| && CalledAt(Runs(w, steps[..i], safe), steps[i], k)
  }

  lemma {:induction false} CallsComeFrom(w: World, steps: seq<Step>, safe: set<Id>, k: Key)
    requires CallInv(w, safe) && NamesRequests(w) && Runs(w, steps, safe).calls[k] > w.calls[k]
    ensures exists i :: CalledIn(w, steps, safe, i, k)
  {
    hide CallInv, NamesRequests, Next, CalledAt;
    if steps != [] {
      var n := |steps| - 1;
      var before := Runs(w, steps[..n], safe);
      RunsKeepCalls(w, steps[..n], safe);
      RunsKeepNames(w, steps[..n], safe);
      if before.calls[k] > w.calls[k] {
        CallsComeFrom(w, steps[..n], safe, k);
        var i :| CalledIn(w, steps[..n], safe, i, k);
        assert steps[..n][..i] == steps[..i];
        assert CalledIn(w, steps, safe, i, k);
      } else {
        CallIsAuthorized(before, steps[n], safe, k);
        assert CalledIn(w, steps, safe, n, k);
      }
    }
  }

  // -------------------------------------------------------------- approvals

  /** The step is a person's approval of the request, which is pending and not expired, naming
      exactly the payload that is stored. */
  ghost predicate ApprovedAt(w: World, step: Step, id: Id, payload: Payload) {
    && step.Transact? && step.tx.ReviewTx? && step.tx.review.kind.Approve? && step.tx.review.request == id
    && step.tx.review.expected == Some(payload)
    && id in w.db.actions && w.db.actions[id].payload == payload
    && var approval := w.db.actions[id].approval;
       approval.Approval? && approval.status.Awaiting? &&
       (approval.expiresAt.Some? ==> w.db.clock < approval.expiresAt.value)
  }

  /** Only reviews write approval decisions. */
  lemma OnlyReviewsDecide(db: Db, tx: Tx)
    requires !tx.ReviewTx?
    ensures Apply(db, tx).approvals == db.approvals
  {
    if tx.Persist? {
      hide Gateway.Persisted;
      PersistTouches(db, tx.process, tx.turn, tx.decision, tx.breakers);
    } else if OfAction(tx) {
      hide Execution.Reserve, Execution.Record, Execution.StartReconcile, Reviews.Resolved;
      match tx {
        case Reserve(release, adapter, p, id, revision) => ReserveTouches(db, release, adapter, p, id, revision);
        case Record(key, status, effect) => RecordTouches(db, key, status, effect);
        case Reconcile(release, p, id, revision) => ReconcileTouches(db, release, p, id, revision);
        case Resolve(c) => ResolutionsDecideNothing(db, c);
      }
    } else {
      hide ApplyTenant, ApplyProcess;
      if OfTenant(tx) { TenantTxTouches(db, tx); } else { ProcessTxTouches(db, tx); }
    }
  }

  lemma ResolutionsDecideNothing(db: Db, c: Reviews.ResolveCommand)
    ensures var r := Reviews.Resolved(db, c); r.Ok? ==> r.value.approvals == db.approvals
  {
    hide Reviews.ResolvedAttempt, Enqueued;
  }

  lemma ReviewDecides(db: Db, c: Reviews.ReviewCommand, id: Id)
    ensures var r := Reviews.AppliedReview(db, c);
            r.Ok? && id in r.value.approvals && id !in db.approvals && r.value.approvals[id].granted ==>
              id == c.id && c.kind.Approve? && c.id !in db.reviews && c.request in db.actions &&
              r.value.approvals[id].request == c.request && r.value.approvals[id].payload == db.actions[c.request].payload
  {
    hide Reviews.Reviewed, Enqueued;
  }

  lemma StartedTouches(w: World, step: Step)
    requires step.StartExecute?
    ensures OnlyExecution(w.db, Started(w, step).db)
  {
    hide Execution.Reserve;
    ReserveTouches(w.db, step.release, step.adapter, step.process, step.request, step.revision);
  }

  lemma ReconciledTouches(w: World, step: Step)
    requires step.StartReconcile?
    ensures OnlyExecution(w.db, Reconciled(w, step).db)
  {
    hide Execution.StartReconcile;
    ReconcileTouches(w.db, step.release, step.process, step.request, step.revision);
  }

  lemma FinishTouches(w: World, x: Id, safe: set<Id>)
    ensures OnlyExecution(w.db, Next(w, Finish(x), safe).db)
  {
    hide Execution.Record;
    if x in w.executors && w.executors[x].pc.Holding? {
      RecordTouches(w.db, w.executors[x].key, w.executors[x].pc.status, w.executors[x].pc.effect);
    }
  }

  lemma CrossTouches(w: World, x: Id, breakers: Gateway.Breakers, choice: Execution.Choice)
    requires x in w.executors
    ensures Crossed(w, x, breakers, choice).db == w.db
  {
    hide Execution.Cross;
  }

  /** The steps of executors write attempts and requests only. */
  lemma ExecutorsTouch(w: World, step: Step, safe: set<Id>)
    requires !step.Transact?
    ensures OnlyExecution(w.db, Next(w, step, safe).db)
  {
    hide Started, Reconciled, Crossed, Execution.Record;
    match step {
      case StartExecute(_, _, _, _, _, _) => hide OnlyExecution; StartedTouches(w, step);
      case StartReconcile(_, _, _, _, _) => hide OnlyExecution; ReconciledTouches(w, step);
      case Finish(x) => hide OnlyExecution, Next; FinishTouches(w, x, safe);
      case Cross(x, breakers, choice) => if x in w.executors { CrossTouches(w, x, breakers, choice); }
      case Lookup(_, _) =>
      case Crash(_) =>
    }
  }

  lemma NewGrantIsApproval(w: World, step: Step, safe: set<Id>, c: Id)
    requires c in Next(w, step, safe).db.approvals && c !in w.db.approvals
    requires Next(w, step, safe).db.approvals[c].granted
    ensures var decision := Next(w, step, safe).db.approvals[c];
            ApprovedAt(w, step, decision.request, decision.payload)
  {
    if step.Transact? {
      hide Apply;
      if step.tx.ReviewTx? { NewGrantIsReview(w.db, step.tx, c); } else { OnlyReviewsDecide(w.db, step.tx); }
    } else {
      hide Next, ApprovedAt;
      ExecutorsTouch(w, step, safe);
    }
  }

  lemma NewGrantIsReview(db: Db, tx: Tx, c: Id)
    requires tx.ReviewTx? && c in Apply(db, tx).approvals && c !in db.approvals && Apply(db, tx).approvals[c].granted
    ensures tx.review.kind.Approve? && tx.review.request in db.actions
    ensures var decision, a := Apply(db, tx).approvals[c], db.actions[tx.review.request];
            && decision.request == tx.review.request && decision.payload == a.payload
            && tx.review.expected == Some(a.payload)
            && a.approval.Approval? && a.approval.status.Awaiting?
            && (a.approval.expiresAt.Some? ==> db.clock < a.approval.expiresAt.value)
  {
    hide Reviews.AppliedReview, Execution.HasGrant;
    ReviewDecides(db, tx.review, c);
    Guards.ApprovalBindsPayload(db, tx.review);
  }

  ghost predicate ApprovedIn(w: World, steps: seq<Step>, safe: set<Id>, i: int, id: Id, payload: Payload) {
    0 <= i < |steps| && ApprovedAt(Runs(w, steps[..i], safe), steps[i], id, payload)
  }

  lemma ApprovalsStay(w: World, step: Step, safe: set<Id>, c: Id)
    requires w.db.approvals.Keys <= w.db.reviews.Keys && c in w.db.approvals
    ensures var after := Next(w, step, safe).db; c in after.approvals && after.approvals[c] == w.db.approvals[c]
  {
    if step.Transact? {
      hide Apply;
      if step.tx.ReviewTx? { ReviewKeepsApprovals(w.db, step.tx, c); } else { OnlyReviewsDecide(w.db, step.tx); }
    } else {
      hide Next;
      ExecutorsTouch(w, step, safe);
    }
  }

  lemma DecisionsAreReviewed(w: World, safe: set<Id>)
    requires CallInv(w, safe)
    ensures w.db.approvals.Keys <= w.db.reviews.Keys
  {}

  lemma ReviewKeepsApprovals(db: Db, tx: Tx, c: Id)
    requires tx.ReviewTx? && db.approvals.Keys <= db.reviews.Keys && c in db.approvals
    ensures c in Apply(db, tx).approvals && Apply(db, tx).approvals[c] == db.approvals[c]
  {
    hide Reviews.Reviewed, Enqueued, Reviews.TargetError, Reviews.PendingError;
    var r := Reviews.AppliedReview(db, tx.review);
    if r.Ok? && tx.review.id !in db.reviews { assert c != tx.review.id; }
  }

  /** A grant of a later state was there before or comes from an approval on the way. */
  lemma {:induction false} GrantsComeFrom(w: World, steps: seq<Step>, safe: set<Id>, c: Id)
    requires CallInv(w, safe) && c in Runs(w, steps, safe).db.approvals && Runs(w, steps, safe).db.approvals[c].granted
    ensures var decision := Runs(w, steps, safe).db.approvals[c];
            (c in w.db.approvals && w.db.approvals[c] == decision) ||
            exists i :: ApprovedIn(w, steps, safe, i, decision.request, decision.payload)
  {
    hide CallInv, Next, ApprovedAt;
    if steps != [] {
      var n := |steps| - 1;
      var before := Runs(w, steps[..n], safe);
      var decision := Runs(w, steps, safe).db.approvals[c];
      RunsKeepCalls(w, steps[..n], safe);
      if c in before.db.approvals {
        DecisionsAreReviewed(before, safe);
        ApprovalsStay(before, steps[n], safe, c);
        GrantsComeFrom(w, steps[..n], safe, c);
        if i :| ApprovedIn(w, steps[..n], safe, i, decision.request, decision.payload) {
          assert steps[..n][..i] == steps[..i];
          assert ApprovedIn(w, steps, safe, i, decision.request, decision.payload);
        }
      } else {
        NewGrantIsApproval(before, steps[n], safe, c);
        assert ApprovedIn(w, steps, safe, n, decision.request, decision.payload);
      }
    }
  }

  // ------------------------------------------------------------ the theorem

  /** Step j calls the provider for the key, authorized at that moment; if the policy requires an
      approval, an earlier step of the run is a person's approval of exactly that payload. */
  ghost predicate AccountedFor(w: World, steps: seq<Step>, safe: set<Id>, j: int, k: Key) {
    && CalledIn(w, steps, safe, j, k)
    && (Runs(w, steps[..j], safe).db.actions[k.request].outcome.RequireApproval? ==>
          exists i :: 0 <= i < j && ApprovedIn(w, steps, safe, i, k.request, k.payload))
  }

  lemma GrantOf(db: Db, release: Deployment, p: Id, id: Id) returns (c: Id)
    requires Guards.Authorized(db, release, p, id) && db.actions[id].outcome.RequireApproval?
    ensures c in db.approvals && db.approvals[c].granted
    ensures db.approvals[c].request == id && db.approvals[c].payload == db.actions[id].payload
  {
    c :| c in db.approvals && db.approvals[c].request == id && db.approvals[c].granted &&
         db.approvals[c].payload == db.actions[id].payload;
  }

  /** However executors overlap and crash: whatever a provider was called for, some step of the
      run called for it under an authorization of that very moment, and before that, where the
      policy asks for it, a person approved exactly the payload that was sent. */
  lemma CallsAreAccountedFor(w: World, steps: seq<Step>, safe: set<Id>, k: Key)
    requires Initial(w) && w.db.approvals == map[] && Runs(w, steps, safe).calls[k] > 0
    ensures exists j :: AccountedFor(w, steps, safe, j, k)
  {
    hide Initial, CallInv, Runs, CalledAt, ApprovedAt;
    InitialIsOk(w, safe);
    NothingCalled(w, k);
    CallsComeFrom(w, steps, safe, k);
    var j :| CalledIn(w, steps, safe, j, k);
    var before := Runs(w, steps[..j], safe);
    CalledIsAuthorized(before, steps[j], k);
    if before.db.actions[k.request].outcome.RequireApproval? {
      var c := GrantOf(before.db, before.executors[steps[j].x].release, k.process, k.request);
      GrantsComeFrom(w, steps[..j], safe, c);
      var i :| ApprovedIn(w, steps[..j], safe, i, k.request, k.payload);
      assert steps[..j][..i] == steps[..i];
      assert ApprovedIn(w, steps, safe, i, k.request, k.payload);
    }
    assert AccountedFor(w, steps, safe, j, k);
  }

  lemma NothingCalled(w: World, k: Key)
    requires Initial(w)
    ensures w.calls[k] == 0 && NamesRequests(w)
  {
    hide CoreInv;
  }

  lemma CalledIsAuthorized(w: World, step: Step, k: Key)
    requires CalledAt(w, step, k)
    ensures step.Cross? && step.x in w.executors && k.request in w.db.actions
    ensures w.db.actions[k.request].payload == k.payload
    ensures Guards.Authorized(w.db, w.executors[step.x].release, k.process, k.request)
  {}
}
