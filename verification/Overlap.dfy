/** What recorded outcomes are worth when executors of one key overlap. */
module Overlap {
  import opened Contracts
  import opened Store
  import opened Protocol
  import opened Frames
  import opened CoreInvariant
  import opened Executors
  import Communications
  import Execution
  import Gateway
  import Outcomes

  // ----------------------------------------------- successes and conflicts

  /** No operator decides an outcome, and a lookup finds only what is stored. */
  ghost predicate Faithful(w: World, step: Step) {
    match step
    case Transact(tx) => !tx.Resolve?
    case Lookup(x, answer) =>
      x in w.executors && answer.Found? ==>
        w.executors[x].key in w.stored && w.stored[w.executors[x].key] == answer.effect
    case _ => true
  }

  ghost predicate FaithfulRun(w: World, steps: seq<Step>, safe: set<Id>) {
    steps != [] ==>
      FaithfulRun(w, steps[..|steps| - 1], safe) &&
      Faithful(Runs(w, steps[..|steps| - 1], safe), steps[|steps| - 1])
  }

  /** A claimed success or conflict is the outcome stored for the key. */
  predicate EffectTrue(stored: map<Key, Effect>, k: Key, status: ActionStatus, effect: Option<Effect>) {
    status.Failed? || Execution.Truthful(stored, k, status, effect)
  }

  ghost predicate AttemptEffectTrue(w: World, k: Key)
    requires k in w.db.attempts
  {
    EffectTrue(w.stored, k, w.db.attempts[k].status, w.db.attempts[k].effect)
  }

  ghost predicate HeldEffectTrue(w: World, x: Id)
    requires x in w.executors
  {
    var e := w.executors[x];
    e.pc.Holding? ==> EffectTrue(w.stored, e.key, e.pc.status, e.pc.effect)
  }

  ghost predicate EffectInv(w: World) {
    && (forall k :: k in w.db.attempts ==> AttemptEffectTrue(w, k))
    && (forall x :: x in w.executors ==> HeldEffectTrue(w, x))
  }

  /** Outcomes stay stored; attempts and executors keep their claims or make true ones. */
  lemma StepKeepsEffects(w: World, after: World)
    requires EffectInv(w)
    requires forall k :: k in w.stored ==> k in after.stored && after.stored[k] == w.stored[k]
    requires forall k :: k in after.db.attempts ==>
               (k in w.db.attempts && after.db.attempts[k] == w.db.attempts[k]) || AttemptEffectTrue(after, k)
    requires forall x :: x in after.executors ==>
               (x in w.executors && after.executors[x] == w.executors[x]) || HeldEffectTrue(after, x)
    ensures EffectInv(after)
  {
    forall k | k in after.db.attempts ensures AttemptEffectTrue(after, k) {
      if k in w.db.attempts { assert AttemptEffectTrue(w, k); }
    }
    forall x | x in after.executors ensures HeldEffectTrue(after, x) {
      if x in w.executors { assert HeldEffectTrue(w, x); }
    }
  }

  lemma JoinedKeepsEffects(w: World, x: Id, e: Executor, db: Db, isNew: bool)
    requires EffectInv(w) && x !in w.executors && !e.pc.Holding?
    requires e.key in db.attempts && db.attempts[e.key].status in {Executing, Unknown, Reconciling}
    requires db.attempts.Keys == w.db.attempts.Keys + {e.key}
    requires forall k :: k in w.db.attempts && k != e.key ==> db.attempts[k] == w.db.attempts[k]
    ensures EffectInv(Joined(w, x, e, db, isNew))
  {
    StepKeepsEffects(w, Joined(w, x, e, db, isNew));
  }

  lemma StartKeepsEffects(w: World, step: Step, safe: set<Id>)
    requires CallInv(w, safe) && EffectInv(w) && step.StartExecute?
    ensures EffectInv(Started(w, step))
  {
    hide CoreInv, Attached, MayStillCall, CallsOk, Execution.Reserve, Joined, Execution.WithBoth, EffectInv;
    var r := Execution.Reserve(w.db, step.release, step.adapter, step.process, step.request, step.revision);
    if step.x !in w.executors && r.Ok? && !r.value.1.AlreadyFinal? {
      Frames.ReserveIsBoth(w.db, step.release, step.adapter, step.process, step.request, step.revision);
      var key := KeyOf(step.request, w.db.actions[step.request]);
      var isNew := r.value.1.NewAttempt?;
      var attempt := if key in w.db.attempts then w.db.attempts[key] else Attempt(step.adapter, Executing, None);
      BothAddsAttempt(w.db, step.request, Executing, attempt);
      if key in w.db.attempts { Outcomes.LiveStatus(w.db, key); }
      JoinedKeepsEffects(
        w, step.x, Executor(step.release, step.adapter, step.process, step.request, step.revision, key, false,
                            if isNew then Crossing else Looking), r.value.0, isNew);
    }
  }

  lemma ReconcileKeepsEffects(w: World, step: Step, safe: set<Id>)
    requires CallInv(w, safe) && EffectInv(w) && step.StartReconcile?
    ensures EffectInv(Reconciled(w, step))
  {
    hide CoreInv, Attached, MayStillCall, CallsOk, Execution.StartReconcile, Joined, Execution.WithBoth, EffectInv;
    var r := Execution.StartReconcile(w.db, step.release, step.process, step.request, step.revision);
    if step.x !in w.executors && r.Ok? && !r.value.1 {
      Frames.ReconcileIsBoth(w.db, step.release, step.process, step.request, step.revision);
      var key := KeyOf(step.request, w.db.actions[step.request]);
      BothAddsAttempt(w.db, step.request, Reconciling, w.db.attempts[key].(status := Reconciling));
      JoinedKeepsEffects(
        w, step.x, Executor(step.release, w.db.attempts[key].adapter, step.process, step.request, step.revision,
                            key, true, Looking), r.value.0, false);
    }
  }

  lemma AnswerIsTrue(stored: map<Key, Effect>, key: Key, choice: Execution.Choice)
    requires choice.Sensible()
    ensures var o, after := Execution.Answers(stored, key, choice), Execution.Stores(stored, key, choice);
            && EffectTrue(after, key, Execution.StatusOf(o), Execution.EffectOf(o))
            && forall k :: k in stored ==> k in after && after[k] == stored[k]
  {}

  lemma CrossKeepsEffects(w: World, x: Id, breakers: Gateway.Breakers, choice: Execution.Choice)
    requires EffectInv(w) && x in w.executors && choice.Sensible()
    ensures EffectInv(Crossed(w, x, breakers, choice))
  {
    hide EffectInv, Execution.Cross, Execution.Answers, Execution.Stores, Execution.StatusOf, Execution.EffectOf;
    AnswerIsTrue(w.stored, w.executors[x].key, choice);
    StepKeepsEffects(w, Crossed(w, x, breakers, choice));
  }

  /** A recording either finds a final attempt or writes the claim to it. */
  lemma RecordWrites(db: Db, key: Key, status: ActionStatus, effect: Option<Effect>)
    ensures var after := Execution.Record(db, key, status, effect);
            && after.attempts.Keys == db.attempts.Keys
            && forall k :: k in db.attempts ==>
                 after.attempts[k] == db.attempts[k] ||
                 (k == key && !IsFinal(db.attempts[k].status) &&
                  after.attempts[k] == db.attempts[k].(status := status, effect := effect))
  {}

  lemma FinishKeepsEffects(w: World, x: Id, safe: set<Id>)
    requires EffectInv(w) && x in w.executors && w.executors[x].pc.Holding?
    ensures EffectInv(Next(w, Finish(x), safe))
  {
    hide EffectInv, Execution.Record;
    var e := w.executors[x];
    assert HeldEffectTrue(w, x) by { HeldOf(w, x); }
    RecordWrites(w.db, e.key, e.pc.status, e.pc.effect);
    StepKeepsEffects(w, Next(w, Finish(x), safe));
  }

  lemma HeldOf(w: World, x: Id)
    requires EffectInv(w) && x in w.executors
    ensures HeldEffectTrue(w, x)
  {}

  lemma FaithfulStepKeepsEffects(w: World, step: Step, safe: set<Id>)
    requires CallInv(w, safe) && EffectInv(w) && Faithful(w, step)
    ensures EffectInv(Next(w, step, safe))
  {
    hide CallInv, EffectInv, Started, Reconciled, Crossed, Apply;
    match step {
      case Transact(tx) =>
        if !IsExecutorTx(tx) {
          AttemptsPersist(w.db, tx);
          StepKeepsEffects(w, Next(w, step, safe));
        }
      case StartExecute(_, _, _, _, _, _) => StartKeepsEffects(w, step, safe);
      case StartReconcile(_, _, _, _, _) => ReconcileKeepsEffects(w, step, safe);
      case Lookup(x, answer) => StepKeepsEffects(w, Next(w, step, safe));
      case Cross(x, breakers, choice) =>
        if x in w.executors && choice.Sensible() { CrossKeepsEffects(w, x, breakers, choice); }
      case Finish(x) =>
        if x in w.executors && w.executors[x].pc.Holding? { FinishKeepsEffects(w, x, safe); }
      case Crash(x) => StepKeepsEffects(w, Next(w, step, safe));
    }
  }

  lemma {:induction false} RunsKeepEffects(w: World, steps: seq<Step>, safe: set<Id>)
    requires CallInv(w, safe) && EffectInv(w) && FaithfulRun(w, steps, safe)
    ensures EffectInv(Runs(w, steps, safe))
  {
    hide CallInv, EffectInv, Next, Faithful;
    if steps != [] {
      RunsKeepEffects(w, steps[..|steps| - 1], safe);
      RunsKeepCalls(w, steps[..|steps| - 1], safe);
      FaithfulStepKeepsEffects(Runs(w, steps[..|steps| - 1], safe), steps[|steps| - 1], safe);
    }
  }

  /** However executors overlap and crash: a recorded success or conflict is the provider's
      stored outcome for the key, with nothing but faithful lookups and no operator resolution. */
  lemma RecordedEffectsAreTrue(w: World, steps: seq<Step>, safe: set<Id>, k: Key)
    requires Initial(w) && FaithfulRun(w, steps, safe) && k in Runs(w, steps, safe).db.attempts
    ensures var now := Runs(w, steps, safe);
            var attempt := now.db.attempts[k];
            && (attempt.status.Succeeded? ==>
                  k in now.stored && attempt.effect == Some(now.stored[k]) && now.stored[k].Accepted?)
            && (attempt.status.Conflict? ==>
                  k in now.stored && attempt.effect == Some(now.stored[k]) && now.stored[k].Conflicted?)
  {
    hide Runs;
    InitialIsOk(w, safe);
    RunsKeepEffects(w, steps, safe);
    assert AttemptEffectTrue(Runs(w, steps, safe), k);
  }

  // --------------------------------------- failures without idempotency

  /** Nothing is stored for the key and nobody is about to call for it. */
  ghost predicate Spent(w: World, k: Key) {
    k !in w.stored && forall x :: x in w.executors && w.executors[x].key == k ==> !w.executors[x].pc.Crossing?
  }

  /** A failure of an adapter without idempotency, held or recorded, is the end of its key. */
  ghost predicate AttemptFailureTrue(w: World, k: Key, safe: set<Id>)
    requires k in w.db.attempts
  {
    w.db.attempts[k].adapter !in safe && w.db.attempts[k].status.Failed? ==> Spent(w, k)
  }

  ghost predicate HeldFailureTrue(w: World, x: Id, safe: set<Id>)
    requires x in w.executors
  {
    var e := w.executors[x];
    e.adapter !in safe && e.pc.Holding? && e.pc.status.Failed? ==> Spent(w, e.key)
  }

  ghost predicate FailureInv(w: World, safe: set<Id>) {
    && (forall k :: k in w.stored ==> w.calls[k] > 0)
    && (forall k :: k in w.db.attempts ==> AttemptFailureTrue(w, k, safe))
    && (forall x :: x in w.executors ==> HeldFailureTrue(w, x, safe))
  }

  ghost predicate NotResolved(steps: seq<Step>) {
    forall i :: 0 <= i < |steps| ==> !(steps[i].Transact? && steps[i].tx.Resolve?)
  }

  lemma SameAttemptsKeepFailures(w: World, after: World, safe: set<Id>)
    requires FailureInv(w, safe) && after == w.(db := after.db) && after.db.attempts == w.db.attempts
    ensures FailureInv(after, safe)
  {
    forall k | k in after.db.attempts ensures AttemptFailureTrue(after, k, safe) {
      assert AttemptFailureTrue(w, k, safe);
    }
    forall x | x in after.executors ensures HeldFailureTrue(after, x, safe) { assert HeldFailureTrue(w, x, safe); }
  }

  /** Without idempotency the executor about to call is the only one, and nothing is stored. */
  lemma OnlyCaller(w: World, x: Id, safe: set<Id>)
    requires CallInv(w, safe) && FailureInv(w, safe)
    requires x in w.executors && w.executors[x].pc.Crossing? && w.executors[x].adapter !in safe
    ensures w.executors[x].key !in w.stored
    ensures forall y :: y in w.executors && y != x && w.executors[y].key == w.executors[x].key ==>
              !w.executors[y].pc.Crossing?
  {
    hide CoreInv, CallsOk;
    assert Attached(w, x) && MayStillCall(w, x, safe);
    forall y | y in w.executors && y != x && w.executors[y].key == w.executors[x].key
      ensures !w.executors[y].pc.Crossing?
    {
      assert Attached(w, y) && MayStillCall(w, y, safe);
    }
  }

  lemma PlacedKeepsFailures(w: World, x: Id, pc: Pc, safe: set<Id>)
    requires CallInv(w, safe) && FailureInv(w, safe) && x in w.executors
    requires pc.Crossing? ==> w.executors[x].adapter in safe
    requires pc.Holding? && pc.status.Failed? && w.executors[x].adapter !in safe ==> Spent(Placed(w, x, pc), w.executors[x].key)
    ensures FailureInv(Placed(w, x, pc), safe)
  {
    hide CoreInv, MayStillCall, CallsOk;
    var after := Placed(w, x, pc);
    assert Attached(w, x);
    forall k | k in after.db.attempts ensures AttemptFailureTrue(after, k, safe) {
      assert AttemptFailureTrue(w, k, safe);
    }
    forall y | y in after.executors ensures HeldFailureTrue(after, y, safe) {
      if y != x { assert HeldFailureTrue(w, y, safe) && Attached(w, y); }
    }
  }

  lemma JoinedKeepsFailures(w: World, x: Id, e: Executor, db: Db, isNew: bool, safe: set<Id>)
    requires CallInv(w, safe) && FailureInv(w, safe) && x !in w.executors
    requires e.key in db.attempts && db.attempts[e.key].status in {Executing, Unknown, Reconciling}
    requires db.attempts.Keys == w.db.attempts.Keys + {e.key}
    requires forall k :: k in w.db.attempts && k != e.key ==> db.attempts[k] == w.db.attempts[k]
    requires isNew <==> e.key !in w.db.attempts
    requires e.pc == if isNew then Crossing else Looking
    ensures FailureInv(Joined(w, x, e, db, isNew), safe)
  {
    hide CoreInv, MayStillCall, CallsOk;
    var after := Joined(w, x, e, db, isNew);
    forall k | k in after.db.attempts ensures AttemptFailureTrue(after, k, safe) {
      if k != e.key { assert AttemptFailureTrue(w, k, safe); }
    }
    forall y | y in after.executors ensures HeldFailureTrue(after, y, safe) {
      if y in w.executors { assert HeldFailureTrue(w, y, safe) && Attached(w, y); }
    }
  }

  lemma StartKeepsFailures(w: World, step: Step, safe: set<Id>)
    requires CallInv(w, safe) && FailureInv(w, safe) && step.StartExecute?
    ensures FailureInv(Started(w, step), safe)
  {
    hide CoreInv, Attached, MayStillCall, CallsOk, Execution.Reserve, Joined, Execution.WithBoth, FailureInv;
    var r := Execution.Reserve(w.db, step.release, step.adapter, step.process, step.request, step.revision);
    if step.x !in w.executors && r.Ok? && !r.value.1.AlreadyFinal? {
      Frames.ReserveIsBoth(w.db, step.release, step.adapter, step.process, step.request, step.revision);
      NewIffInserted(w.db, step.release, step.adapter, step.process, step.request, step.revision);
      var key := KeyOf(step.request, w.db.actions[step.request]);
      var isNew := r.value.1.NewAttempt?;
      var attempt := if key in w.db.attempts then w.db.attempts[key] else Attempt(step.adapter, Executing, None);
      BothAddsAttempt(w.db, step.request, Executing, attempt);
      if key in w.db.attempts { Outcomes.LiveStatus(w.db, key); }
      JoinedKeepsFailures(
        w, step.x, Executor(step.release, step.adapter, step.process, step.request, step.revision, key, false,
                            if isNew then Crossing else Looking), r.value.0, isNew, safe);
    }
  }

  lemma ReconcileKeepsFailures(w: World, step: Step, safe: set<Id>)
    requires CallInv(w, safe) && FailureInv(w, safe) && step.StartReconcile?
    ensures FailureInv(Reconciled(w, step), safe)
  {
    hide CoreInv, Attached, MayStillCall, CallsOk, Execution.StartReconcile, Joined, Execution.WithBoth, FailureInv;
    var r := Execution.StartReconcile(w.db, step.release, step.process, step.request, step.revision);
    if step.x !in w.executors && r.Ok? && !r.value.1 {
      Frames.ReconcileIsBoth(w.db, step.release, step.process, step.request, step.revision);
      var key := KeyOf(step.request, w.db.actions[step.request]);
      BothAddsAttempt(w.db, step.request, Reconciling, w.db.attempts[key].(status := Reconciling));
      JoinedKeepsFailures(
        w, step.x, Executor(step.release, w.db.attempts[key].adapter, step.process, step.request, step.revision,
                            key, true, Looking), r.value.0, false, safe);
    }
  }

  /** A first failure is definite: nobody called before and nobody else may call any more. */
  lemma CallKeepsFailures(w: World, x: Id, choice: Execution.Choice, after: World, safe: set<Id>)
    requires CallInv(w, safe) && FailureInv(w, safe)
    requires x in w.executors && w.executors[x].pc.Crossing? && choice.Sensible() && Called(w, x, choice, after)
    ensures FailureInv(after, safe)
  {
    hide CoreInv, MayStillCall, CallsOk;
    var e := w.executors[x];
    assert Attached(w, x);
    if e.adapter !in safe { OnlyCaller(w, x, safe); }
    forall k | k in after.db.attempts ensures AttemptFailureTrue(after, k, safe) {
      assert AttemptFailureTrue(w, k, safe);
    }
    forall y | y in after.executors ensures HeldFailureTrue(after, y, safe) {
      if y != x { assert HeldFailureTrue(w, y, safe) && Attached(w, y); }
    }
  }

  lemma CrossKeepsFailures(w: World, x: Id, breakers: Gateway.Breakers, choice: Execution.Choice, safe: set<Id>)
    requires CallInv(w, safe) && FailureInv(w, safe)
    requires x in w.executors && w.executors[x].pc.Crossing? && choice.Sensible()
    ensures FailureInv(Crossed(w, x, breakers, choice), safe)
  {
    hide CallInv, FailureInv, Execution.Cross;
    var e := w.executors[x];
    if e.adapter !in safe { OnlyCaller(w, x, safe); }
    var verdict := Execution.Cross(w.db, e.release, e.process, e.request, e.revision, breakers);
    if verdict.Err? {
      PlacedKeepsFailures(w, x, Done, safe);
    } else if verdict.value.Blocked? {
      PlacedKeepsFailures(w, x, Holding(Failed, None), safe);
    } else {
      CallKeepsFailures(w, x, choice, Crossed(w, x, breakers, choice), safe);
    }
  }

  lemma RecordingKeepsFailures(w: World, x: Id, db: Db, safe: set<Id>)
    requires CallInv(w, safe) && FailureInv(w, safe) && x in w.executors && w.executors[x].pc.Holding?
    requires db.attempts.Keys == w.db.attempts.Keys
    requires var e := w.executors[x];
             forall k :: k in w.db.attempts ==>
               db.attempts[k] == w.db.attempts[k] ||
               (k == e.key && db.attempts[k] == w.db.attempts[k].(status := e.pc.status, effect := e.pc.effect))
    ensures FailureInv(Placed(w, x, Done).(db := db), safe)
  {
    hide CoreInv, MayStillCall, CallsOk;
    var after := Placed(w, x, Done).(db := db);
    assert Attached(w, x) && HeldFailureTrue(w, x, safe);
    forall k | k in after.db.attempts ensures AttemptFailureTrue(after, k, safe) {
      assert AttemptFailureTrue(w, k, safe);
    }
    forall y | y in after.executors ensures HeldFailureTrue(after, y, safe) { assert HeldFailureTrue(w, y, safe); }
  }

  lemma FinishKeepsFailures(w: World, x: Id, safe: set<Id>)
    requires CallInv(w, safe) && FailureInv(w, safe) && x in w.executors && w.executors[x].pc.Holding?
    ensures FailureInv(Next(w, Finish(x), safe), safe)
  {
    hide CallInv, FailureInv, Execution.Record;
    var e := w.executors[x];
    RecordWrites(w.db, e.key, e.pc.status, e.pc.effect);
    RecordingKeepsFailures(w, x, Execution.Record(w.db, e.key, e.pc.status, e.pc.effect), safe);
  }

  lemma StepKeepsFailures(w: World, step: Step, safe: set<Id>)
    requires CallInv(w, safe) && FailureInv(w, safe) && !(step.Transact? && step.tx.Resolve?)
    ensures FailureInv(Next(w, step, safe), safe)
  {
    hide CallInv, FailureInv, Started, Reconciled, Crossed, Apply, Spent;
    match step {
      case Transact(tx) =>
        if !IsExecutorTx(tx) {
          AttemptsPersist(w.db, tx);
          SameAttemptsKeepFailures(w, w.(db := Apply(w.db, tx)), safe);
        }
      case StartExecute(_, _, _, _, _, _) => StartKeepsFailures(w, step, safe);
      case StartReconcile(_, _, _, _, _) => ReconcileKeepsFailures(w, step, safe);
      case Lookup(x, answer) =>
        if x in w.executors && w.executors[x].pc.Looking? {
          PlacedKeepsFailures(w, x, AfterLookup(w.executors[x], answer, safe), safe);
        }
      case Cross(x, breakers, choice) =>
        if x in w.executors && w.executors[x].pc.Crossing? && choice.Sensible() {
          CrossKeepsFailures(w, x, breakers, choice, safe);
        }
      case Finish(x) =>
        if x in w.executors && w.executors[x].pc.Holding? { FinishKeepsFailures(w, x, safe); }
      case Crash(x) =>
        if x in w.executors { PlacedKeepsFailures(w, x, Done, safe); }
    }
  }

  lemma {:induction false} RunsKeepFailures(w: World, steps: seq<Step>, safe: set<Id>)
    requires CallInv(w, safe) && FailureInv(w, safe) && NotResolved(steps)
    ensures FailureInv(Runs(w, steps, safe), safe)
  {
    hide CallInv, FailureInv, Next;
    if steps != [] {
      RunsKeepFailures(w, steps[..|steps| - 1], safe);
      RunsKeepCalls(w, steps[..|steps| - 1], safe);
      StepKeepsFailures(Runs(w, steps[..|steps| - 1], safe), steps[|steps| - 1], safe);
    }
  }

  /** However executors overlap and crash and whatever lookups answer: a failure recorded for an
      adapter without idempotency means that the provider stored nothing. */
  lemma FailuresAreTrueWithoutIdempotency(w: World, steps: seq<Step>, safe: set<Id>, k: Key)
    requires Initial(w) && NotResolved(steps) && k in Runs(w, steps, safe).db.attempts
    requires var attempt := Runs(w, steps, safe).db.attempts[k]; attempt.adapter !in safe && attempt.status.Failed?
    ensures k !in Runs(w, steps, safe).stored
  {
    hide Runs;
    InitialIsOk(w, safe);
    RunsKeepFailures(w, steps, safe);
    assert AttemptFailureTrue(Runs(w, steps, safe), k, safe);
  }

  // ------------------------------------------- failures with idempotency

  /** Two overlapping executions of one request: both pass the second authorization before the
      first records that its own call failed. */
  function Overlapping(release: Deployment, adapter: Id, p: Id, id: Id, breakers: Gateway.Breakers, e: Effect)
    : seq<Step>
  {
    [StartExecute(1, release, adapter, p, id, 1)] + [StartExecute(2, release, adapter, p, id, 1)] +
    [Lookup(2, Missing)] + [Cross(1, breakers, Execution.RaiseFailure)] + [Cross(2, breakers, Execution.Accept(e))] +
    [Finish(1)]
  }

  lemma RunsStep(w: World, steps: seq<Step>, step: Step, safe: set<Id>)
    ensures Runs(w, steps + [step], safe) == Next(Runs(w, steps, safe), step, safe)
  {
    assert (steps + [step])[..|steps|] == steps;
  }

  /** Going from one reserved status to another changes no evidence about messages. */
  lemma {:induction false} ReservedSendTimes(order: seq<Id>, before: map<Id, Action>, after: map<Id, Action>, id: Id,
                                             p: Id, types: set<string>, except: Option<Id>)
    requires id in before && after == before[id := before[id].(status := Executing)] && IsReserved(before[id].status)
    ensures SendTimes(order, after, p, types, except) == SendTimes(order, before, p, types, except)
  {
    if order != [] { ReservedSendTimes(order[..|order| - 1], before, after, id, p, types, except); }
  }

  /** A request in flight is authorized like one that is not yet, messages included. */
  lemma ExecutingMayCall(db: Db, after: Db, release: Deployment, p: Id, id: Id, breakers: Gateway.Breakers)
    requires Execution.Cross(db, release, p, id, 1, breakers) == Ok(Execution.MayCall)
    requires id in db.actions && after == db.(attempts := after.attempts, actions := Execution.WithStatus(db, id, Executing))
    ensures Execution.Refusal(after, release, p, id, 1, true).None?
    ensures Execution.Cross(after, release, p, id, 1, breakers) == Ok(Execution.MayCall)
  {
    hide Execution.HasGrant, Communications.Allowed;
    var types := db.processes[p].definition.comms.outboundTypes;
    if db.actions[id].payload.actionType in types {
      ReservedSendTimes(db.order, db.actions, after.actions, id, p, types, None);
      ReservedSendTimes(db.order, db.actions, after.actions, id, p, types, Some(id));
      assert Inspect(after, p, Some(id)) == Inspect(db, p, Some(id));
    }
  }

  lemma MayCallMayReserve(db: Db, release: Deployment, p: Id, id: Id, breakers: Gateway.Breakers)
    requires Execution.Cross(db, release, p, id, 1, breakers) == Ok(Execution.MayCall)
    ensures Execution.Refusal(db, release, p, id, 1, true).None? && id in db.actions
  {
    hide Execution.PolicyRefusal, Inspect;
  }

  lemma ReserveNew(db: Db, release: Deployment, adapter: Id, p: Id, id: Id)
    requires Execution.Refusal(db, release, p, id, 1, true).None? && id in db.actions
    requires KeyOf(id, db.actions[id]) !in db.attempts
    ensures Execution.Reserve(db, release, adapter, p, id, 1) ==
            Ok((Execution.WithBoth(db, id, Executing, Attempt(adapter, Executing, None)), Execution.NewAttempt))
  {
    hide Execution.Refusal;
  }

  lemma ReserveOld(db: Db, release: Deployment, adapter: Id, p: Id, id: Id)
    requires Execution.Refusal(db, release, p, id, 1, true).None? && id in db.actions
    requires db.actions[id].status.Executing?
    requires var key := KeyOf(id, db.actions[id]);
             key in db.attempts && db.attempts[key] == Attempt(adapter, Executing, None)
    ensures Execution.Reserve(db, release, adapter, p, id, 1) == Ok((db, Execution.OldAttempt))
  {
    hide Execution.Refusal;
    assert Execution.WithStatus(db, id, Executing) == db.actions;
  }

  /** A failure is recorded for the key although the provider stored an effect for it. */
  ghost predicate FalselyFailed(w: World, k: Key, adapter: Id) {
    k in w.db.attempts && w.db.attempts[k].adapter == adapter && w.db.attempts[k].status.Failed? && k in w.stored
  }

  /** For every executable request of an idempotent adapter, approved and message requests
      included, the overlapping run records a failure although an effect is stored. */
  lemma OverlapRecordsFalseFailure(w: World, safe: set<Id>, release: Deployment, adapter: Id, p: Id, id: Id,
                                   breakers: Gateway.Breakers, e: Effect)
    requires Initial(w) && adapter in safe && e.Accepted?
    requires Execution.Cross(w.db, release, p, id, 1, breakers) == Ok(Execution.MayCall)
    ensures id in w.db.actions
    ensures FalselyFailed(Runs(w, Overlapping(release, adapter, p, id, breakers, e), safe),
                          KeyOf(id, w.db.actions[id]), adapter)
  {
    hide CoreInv, Execution.Cross, Execution.Refusal, Execution.Reserve;
    MayCallMayReserve(w.db, release, p, id, breakers);
    var key := KeyOf(id, w.db.actions[id]);
    ReserveNew(w.db, release, adapter, p, id);
    var db1 := Execution.WithBoth(w.db, id, Executing, Attempt(adapter, Executing, None));
    ExecutingMayCall(w.db, db1, release, p, id, breakers);
    ReserveOld(db1, release, adapter, p, id);
    var first := Executor(release, adapter, p, id, 1, key, false, Crossing);
    var w1 := w.(db := db1, executors := map[1 := first], inserter := map[key := 1]);
    var w2 := w1.(executors := map[1 := first, 2 := first.(pc := Looking)]);
    var w3 := w2.(executors := map[1 := first, 2 := first]);
    var w4 := w3.(executors := map[1 := first.(pc := Holding(Failed, None)), 2 := first], calls := multiset{key});
    OverlapStarts(w, w1, w2, safe, release, adapter, p, id, first);
    OverlapCalls(w2, w3, w4, safe, breakers, first);
    OverlapEnds(w4, safe, breakers, first, e);
    ComposeOverlap(w, w1, w2, w3, w4, safe, release, adapter, p, id, breakers, e);
  }

  lemma OverlapStarts(w: World, w1: World, w2: World, safe: set<Id>, release: Deployment, adapter: Id, p: Id, id: Id,
                      first: Executor)
    requires w.executors == map[] && w.inserter == map[] && id in w.db.actions && id in w1.db.actions
    requires first == Executor(release, adapter, p, id, 1, KeyOf(id, w.db.actions[id]), false, Crossing)
    requires KeyOf(id, w1.db.actions[id]) == first.key
    requires Execution.Reserve(w.db, release, adapter, p, id, 1) == Ok((w1.db, Execution.NewAttempt))
    requires Execution.Reserve(w1.db, release, adapter, p, id, 1) == Ok((w1.db, Execution.OldAttempt))
    requires w1 == w.(db := w1.db, executors := map[1 := first], inserter := map[first.key := 1])
    requires w2 == w1.(executors := map[1 := first, 2 := first.(pc := Looking)])
    ensures Next(w, StartExecute(1, release, adapter, p, id, 1), safe) == w1
    ensures Next(w1, StartExecute(2, release, adapter, p, id, 1), safe) == w2
  {
    hide Execution.Reserve;
    assert w2.executors == w1.executors[2 := first.(pc := Looking)];
  }

  lemma OverlapCalls(w2: World, w3: World, w4: World, safe: set<Id>, breakers: Gateway.Breakers, first: Executor)
    requires first.adapter in safe && !first.reconciling && first.pc.Crossing?
    requires w2.executors == map[1 := first, 2 := first.(pc := Looking)]
    requires w2.stored == map[] && w2.calls == multiset{}
    requires Execution.Cross(w2.db, first.release, first.process, first.request, first.revision, breakers) ==
             Ok(Execution.MayCall)
    requires w3 == w2.(executors := map[1 := first, 2 := first])
    requires w4 == w3.(executors := map[1 := first.(pc := Holding(Failed, None)), 2 := first],
                       calls := multiset{first.key})
    ensures Next(w2, Lookup(2, Missing), safe) == w3
    ensures Next(w3, Cross(1, breakers, Execution.RaiseFailure), safe) == w4
  {
    hide Execution.Cross, Apply, Started, Reconciled, Execution.Record;
    assert w3.executors == w2.executors[2 := first];
    assert w4.executors == w3.executors[1 := first.(pc := Holding(Failed, None))];
  }

  lemma SecondCallStores(w4: World, w5: World, safe: set<Id>, breakers: Gateway.Breakers, first: Executor, e: Effect)
    requires first.pc.Crossing? && e.Accepted?
    requires 2 in w4.executors && w4.executors[2] == first && w4.stored == map[]
    requires Execution.Cross(w4.db, first.release, first.process, first.request, first.revision, breakers) ==
             Ok(Execution.MayCall)
    requires w5 == Next(w4, Cross(2, breakers, Execution.Accept(e)), safe)
    ensures w5.db == w4.db && w5.stored == map[first.key := e]
    ensures w5.executors == w4.executors[2 := w5.executors[2]]
  {
    hide Execution.Cross, Apply, Started, Reconciled;
  }

  lemma FailureIsRecorded(db: Db, key: Key)
    requires key in db.attempts && key.request in db.actions && !IsFinal(db.attempts[key].status)
    ensures var after := Execution.Record(db, key, Failed, None).attempts;
            key in after && after[key] == db.attempts[key].(status := Failed, effect := None)
  {}

  lemma FirstFinishes(w5: World, safe: set<Id>, first: Executor)
    requires 1 in w5.executors && w5.executors[1] == first.(pc := Holding(Failed, None))
    requires first.key in w5.db.attempts && first.key.request in w5.db.actions && first.key in w5.stored
    requires w5.db.attempts[first.key] == Attempt(first.adapter, Executing, None)
    ensures FalselyFailed(Next(w5, Finish(1), safe), first.key, first.adapter)
  {
    hide Apply, Started, Reconciled, Crossed, Execution.Record;
    FailureIsRecorded(w5.db, first.key);
  }

  lemma OverlapEnds(w4: World, safe: set<Id>, breakers: Gateway.Breakers, first: Executor, e: Effect)
    requires first.pc.Crossing? && e.Accepted?
    requires w4.executors == map[1 := first.(pc := Holding(Failed, None)), 2 := first] && w4.stored == map[]
    requires first.key in w4.db.attempts && first.key.request in w4.db.actions
    requires w4.db.attempts[first.key] == Attempt(first.adapter, Executing, None)
    requires Execution.Cross(w4.db, first.release, first.process, first.request, first.revision, breakers) ==
             Ok(Execution.MayCall)
    ensures var w5 := Next(w4, Cross(2, breakers, Execution.Accept(e)), safe);
            FalselyFailed(Next(w5, Finish(1), safe), first.key, first.adapter)
  {
    hide Execution.Cross, Next, FalselyFailed;
    var w5 := Next(w4, Cross(2, breakers, Execution.Accept(e)), safe);
    SecondCallStores(w4, w5, safe, breakers, first, e);
    FirstFinishes(w5, safe, first);
  }

  lemma ComposeOverlap(w: World, w1: World, w2: World, w3: World, w4: World, safe: set<Id>, release: Deployment,
                       adapter: Id, p: Id, id: Id, breakers: Gateway.Breakers, e: Effect)
    requires Next(w, StartExecute(1, release, adapter, p, id, 1), safe) == w1
    requires Next(w1, StartExecute(2, release, adapter, p, id, 1), safe) == w2
    requires Next(w2, Lookup(2, Missing), safe) == w3
    requires Next(w3, Cross(1, breakers, Execution.RaiseFailure), safe) == w4
    ensures Runs(w, Overlapping(release, adapter, p, id, breakers, e), safe) ==
            Next(Next(w4, Cross(2, breakers, Execution.Accept(e)), safe), Finish(1), safe)
  {
    hide Next;
    var a := StartExecute(1, release, adapter, p, id, 1);
    var b := StartExecute(2, release, adapter, p, id, 1);
    var c, d := Lookup(2, Missing), Cross(1, breakers, Execution.RaiseFailure);
    var f := Cross(2, breakers, Execution.Accept(e));
    assert [] + [a] == [a];
    RunsStep(w, [], a, safe);
    RunsStep(w, [a], b, safe);
    RunsStep(w, [a] + [b], c, safe);
    RunsStep(w, [a] + [b] + [c], d, safe);
    RunsStep(w, [a] + [b] + [c] + [d], f, safe);
    RunsStep(w, [a] + [b] + [c] + [d] + [f], Finish(1), safe);
  }

  // ------------------------------------------------------ the exact condition

  /** Some run without operator resolution records a false failure for the key. */
  ghost predicate CanFailFalsely(w: World, safe: set<Id>, k: Key, adapter: Id) {
    exists steps :: NotResolved(steps) && FalselyFailed(Runs(w, steps, safe), k, adapter)
  }

  /** Exactly the adapters that promise idempotency can leave a recorded failure beside a stored
      effect: those are the ones that are called again, and only then do two calls of one key
      disagree. It holds of every request that may be executed. */
  lemma FalseFailuresExactly(w: World, safe: set<Id>, release: Deployment, adapter: Id, p: Id, id: Id,
                             breakers: Gateway.Breakers)
    requires Initial(w) && Execution.Cross(w.db, release, p, id, 1, breakers) == Ok(Execution.MayCall)
    ensures id in w.db.actions
    ensures CanFailFalsely(w, safe, KeyOf(id, w.db.actions[id]), adapter) <==> adapter in safe
  {
    hide Initial, Execution.Cross, Runs, Execution.Refusal;
    MayCallMayReserve(w.db, release, p, id, breakers);
    var k := KeyOf(id, w.db.actions[id]);
    if adapter in safe {
      var e := Accepted("stored", []);
      OverlapRecordsFalseFailure(w, safe, release, adapter, p, id, breakers, e);
      var steps := Overlapping(release, adapter, p, id, breakers, e);
      assert NotResolved(steps) && FalselyFailed(Runs(w, steps, safe), k, adapter);
    } else if CanFailFalsely(w, safe, k, adapter) {
      var steps :| NotResolved(steps) && FalselyFailed(Runs(w, steps, safe), k, adapter);
      FailuresAreTrueWithoutIdempotency(w, steps, safe, k);
    }
  }
}
