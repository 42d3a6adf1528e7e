/** Recorded outcomes tell the truth about the provider, with one live executor per key. */
module Outcomes {
  import opened Contracts
  import opened Store
  import opened Protocol
  import opened Frames
  import opened CoreInvariant
  import opened Executors
  import Footprints
  import Gateway
  import Execution

  predicate IsLive(e: Executor) { !e.pc.Done? }

  ghost predicate NobodyWorksOn(w: World, k: Key) {
    forall x :: x in w.executors && w.executors[x].key == k ==> !IsLive(w.executors[x])
  }

  /** One live executor a key, faithful lookups and no operator resolutions. */
  ghost predicate Honest(w: World, step: Step) {
    match step
    case Transact(tx) => !tx.Resolve?
    case StartExecute(_, _, _, _, id, _) =>
      id in w.db.actions ==> NobodyWorksOn(w, KeyOf(id, w.db.actions[id]))
    case StartReconcile(_, _, _, id, _) =>
      id in w.db.actions ==> NobodyWorksOn(w, KeyOf(id, w.db.actions[id]))
    case Lookup(x, answer) =>
      x in w.executors ==>
        var k := w.executors[x].key;
        (answer.Missing? ==> k !in w.stored) && (answer.Found? ==> k in w.stored && w.stored[k] == answer.effect)
    case _ => true
  }

  ghost predicate HonestRun(w: World, steps: seq<Step>, safe: set<Id>) {
    steps != [] ==>
      HonestRun(w, steps[..|steps| - 1], safe) &&
      Honest(Runs(w, steps[..|steps| - 1], safe), steps[|steps| - 1])
  }

  /** What an executor holds is true, and before a call there is nothing stored. */
  ghost predicate ExecutorOk(w: World, x: Id)
    requires x in w.executors
  {
    var e := w.executors[x];
    && (IsLive(e) ==> e.key in w.db.attempts && !IsFinal(w.db.attempts[e.key].status))
    && (e.pc.Crossing? ==> e.key !in w.stored)
    && (e.pc.Holding? ==> Execution.Truthful(w.stored, e.key, e.pc.status, e.pc.effect))
  }

  ghost predicate Alone(w: World) {
    forall x, y :: x in w.executors && y in w.executors && IsLive(w.executors[x]) && IsLive(w.executors[y]) && x != y ==>
      w.executors[x].key != w.executors[y].key
  }

  ghost predicate AttemptTrue(w: World, k: Key)
    requires k in w.db.attempts
  {
    Execution.Truthful(w.stored, k, w.db.attempts[k].status, w.db.attempts[k].effect)
  }

  ghost predicate OutcomeInv(w: World) {
    && (forall k :: k in w.stored ==> k in w.db.attempts)
    && (forall k :: k in w.db.attempts ==> AttemptTrue(w, k))
    && (forall x :: x in w.executors ==> ExecutorOk(w, x))
    && Alone(w)
  }

  // ------------------------------------------------------------ generic steps

  lemma SameAttemptsKeepOutcomes(w: World, after: World)
    requires OutcomeInv(w) && after == w.(db := after.db) && after.db.attempts == w.db.attempts
    ensures OutcomeInv(after)
  {
    forall k | k in after.db.attempts ensures AttemptTrue(after, k) { assert AttemptTrue(w, k); }
    forall x | x in after.executors ensures ExecutorOk(after, x) { assert ExecutorOk(w, x); }
  }

  lemma PlacedKeepsOutcomes(w: World, x: Id, pc: Pc)
    requires OutcomeInv(w) && x in w.executors
    requires IsLive(w.executors[x]) || pc.Done?
    requires pc.Crossing? ==> w.executors[x].key !in w.stored
    requires pc.Holding? ==> Execution.Truthful(w.stored, w.executors[x].key, pc.status, pc.effect)
    ensures OutcomeInv(Placed(w, x, pc))
  {
    var after := Placed(w, x, pc);
    forall k | k in after.db.attempts ensures AttemptTrue(after, k) { assert AttemptTrue(w, k); }
    forall y | y in after.executors ensures ExecutorOk(after, y) { assert ExecutorOk(w, y) && ExecutorOk(w, x); }
  }

  lemma JoinedKeepsOutcomes(w: World, x: Id, e: Executor, db: Db, isNew: bool)
    requires OutcomeInv(w) && x !in w.executors && NobodyWorksOn(w, e.key)
    requires e.key in db.attempts && !IsFinal(db.attempts[e.key].status)
    requires db.attempts.Keys == w.db.attempts.Keys + {e.key}
    requires forall k :: k in w.db.attempts && k != e.key ==> db.attempts[k] == w.db.attempts[k]
    requires isNew <==> e.key !in w.db.attempts
    requires e.pc == if isNew then Crossing else Looking
    requires db.attempts[e.key].status in {Executing, Unknown, Reconciling}
    ensures OutcomeInv(Joined(w, x, e, db, isNew))
  {
    var after := Joined(w, x, e, db, isNew);
    forall k | k in after.db.attempts ensures AttemptTrue(after, k) {
      if k != e.key { assert AttemptTrue(w, k); }
    }
    forall y | y in after.executors ensures ExecutorOk(after, y) {
      if y in w.executors { assert ExecutorOk(w, y); }
    }
  }

  // ------------------------------------------------------------------- steps

  lemma StartKeepsOutcomes(w: World, step: Step, safe: set<Id>)
    requires CallInv(w, safe) && OutcomeInv(w) && step.StartExecute? && Honest(w, step)
    ensures OutcomeInv(Started(w, step))
  {
    hide CoreInv, Attached, MayStillCall, CallsOk, Execution.Reserve, Execution.PolicyRefusal, Joined,
         Execution.WithBoth, OutcomeInv, NobodyWorksOn;
    var r := Execution.Reserve(w.db, step.release, step.adapter, step.process, step.request, step.revision);
    if step.x !in w.executors && r.Ok? && !r.value.1.AlreadyFinal? {
      ReserveIsBoth(w.db, step.release, step.adapter, step.process, step.request, step.revision);
      NewIffInserted(w.db, step.release, step.adapter, step.process, step.request, step.revision);
      var key := KeyOf(step.request, w.db.actions[step.request]);
      var isNew := r.value.1.NewAttempt?;
      var attempt := if key in w.db.attempts then w.db.attempts[key] else Attempt(step.adapter, Executing, None);
      BothAddsAttempt(w.db, step.request, Executing, attempt);
      if key in w.db.attempts { LiveStatus(w.db, key); }
      JoinedKeepsOutcomes(
        w, step.x, Executor(step.release, step.adapter, step.process, step.request, step.revision, key, false,
                            if isNew then Crossing else Looking), r.value.0, isNew);
    }
  }

  lemma LiveStatus(db: Db, k: Key)
    requires CoreInv(db) && k in db.attempts && !IsFinal(db.attempts[k].status)
    ensures db.attempts[k].status in {Executing, Unknown, Reconciling}
  {
    assert AttemptOk(db, k);
    assert ActionOk(db, k.request);
  }

  lemma ReconcileKeepsOutcomes(w: World, step: Step, safe: set<Id>)
    requires CallInv(w, safe) && OutcomeInv(w) && step.StartReconcile? && Honest(w, step)
    ensures OutcomeInv(Reconciled(w, step))
  {
    hide CoreInv, Attached, MayStillCall, CallsOk, Execution.StartReconcile, Execution.PolicyRefusal, Joined,
         Execution.WithBoth, OutcomeInv, NobodyWorksOn;
    var r := Execution.StartReconcile(w.db, step.release, step.process, step.request, step.revision);
    if step.x !in w.executors && r.Ok? && !r.value.1 {
      ReconcileIsBoth(w.db, step.release, step.process, step.request, step.revision);
      var key := KeyOf(step.request, w.db.actions[step.request]);
      BothAddsAttempt(w.db, step.request, Reconciling, w.db.attempts[key].(status := Reconciling));
      JoinedKeepsOutcomes(
        w, step.x, Executor(step.release, w.db.attempts[key].adapter, step.process, step.request, step.revision,
                            key, true, Looking), r.value.0, false);
    }
  }

  lemma AnswersAreTruthful(stored: map<Key, Effect>, key: Key, choice: Execution.Choice)
    requires key !in stored && choice.Sensible()
    ensures var o := Execution.Answers(stored, key, choice);
            Execution.Truthful(Execution.Stores(stored, key, choice), key, Execution.StatusOf(o), Execution.EffectOf(o))
    ensures forall k :: k != key ==>
              (k in Execution.Stores(stored, key, choice) <==> k in stored) &&
              (k in stored ==> Execution.Stores(stored, key, choice)[k] == stored[k])
  {}

  lemma CallKeepsOutcomes(w: World, x: Id, choice: Execution.Choice, after: World)
    requires OutcomeInv(w) && x in w.executors && w.executors[x].pc.Crossing? && choice.Sensible()
    requires Called(w, x, choice, after)
    ensures OutcomeInv(after)
  {
    hide Execution.Stores, Execution.Answers, Execution.StatusOf, Execution.EffectOf;
    var key := w.executors[x].key;
    assert ExecutorOk(w, x);
    AnswersAreTruthful(w.stored, key, choice);
    forall k | k in after.stored ensures k in after.db.attempts { if k != key { assert k in w.stored; } }
    forall k | k in after.db.attempts ensures AttemptTrue(after, k) { assert AttemptTrue(w, k); }
    forall y | y in after.executors ensures ExecutorOk(after, y) { assert ExecutorOk(w, y); }
  }

  lemma CrossKeepsOutcomes(w: World, x: Id, breakers: Gateway.Breakers, choice: Execution.Choice)
    requires OutcomeInv(w) && x in w.executors && w.executors[x].pc.Crossing? && choice.Sensible()
    ensures OutcomeInv(Crossed(w, x, breakers, choice))
  {
    hide OutcomeInv, Execution.Cross;
    var e := w.executors[x];
    assert ExecutorOk(w, x) by { OutcomeOf(w, x); }
    var verdict := Execution.Cross(w.db, e.release, e.process, e.request, e.revision, breakers);
    if verdict.Err? {
      PlacedKeepsOutcomes(w, x, Done);
    } else if verdict.value.Blocked? {
      PlacedKeepsOutcomes(w, x, Holding(Failed, None));
    } else {
      CallKeepsOutcomes(w, x, choice, Crossed(w, x, breakers, choice));
    }
  }

  lemma OutcomeOf(w: World, x: Id)
    requires OutcomeInv(w) && x in w.executors
    ensures ExecutorOk(w, x)
  {}

  lemma RecordSets(db: Db, key: Key, status: ActionStatus, effect: Option<Effect>)
    requires CoreInv(db) && key in db.attempts && !IsFinal(db.attempts[key].status)
    ensures Execution.Record(db, key, status, effect).attempts ==
            db.attempts[key := db.attempts[key].(status := status, effect := effect)]
  {
    assert AttemptOk(db, key);
  }

  lemma RecordingKeepsOutcomes(w: World, x: Id, db: Db)
    requires OutcomeInv(w) && x in w.executors && w.executors[x].pc.Holding?
    requires var e := w.executors[x];
             e.key in w.db.attempts &&
             db.attempts == w.db.attempts[e.key := w.db.attempts[e.key].(status := e.pc.status, effect := e.pc.effect)]
    ensures OutcomeInv(Placed(w, x, Done).(db := db))
  {
    var e, after := w.executors[x], Placed(w, x, Done).(db := db);
    assert ExecutorOk(w, x);
    forall k | k in after.db.attempts ensures AttemptTrue(after, k) {
      if k != e.key { assert AttemptTrue(w, k); }
    }
    forall y | y in after.executors ensures ExecutorOk(after, y) { assert ExecutorOk(w, y); }
  }

  lemma FinishKeepsOutcomes(w: World, x: Id, safe: set<Id>)
    requires CallInv(w, safe) && OutcomeInv(w) && x in w.executors && w.executors[x].pc.Holding?
    ensures OutcomeInv(Next(w, Finish(x), safe))
  {
    hide CoreInv, OutcomeInv, Attached, MayStillCall, CallsOk, Execution.Record;
    var e := w.executors[x];
    OutcomeOf(w, x);
    RecordSets(w.db, e.key, e.pc.status, e.pc.effect);
    RecordingKeepsOutcomes(w, x, Execution.Record(w.db, e.key, e.pc.status, e.pc.effect));
  }

  lemma TransactKeepsOutcomes(w: World, tx: Tx, safe: set<Id>)
    requires OutcomeInv(w) && !tx.Resolve?
    ensures OutcomeInv(Next(w, Transact(tx), safe))
  {
    hide OutcomeInv, Apply;
    if !IsExecutorTx(tx) {
      AttemptsPersist(w.db, tx);
      SameAttemptsKeepOutcomes(w, w.(db := Apply(w.db, tx)));
    }
  }

  lemma LookupIsTruthful(w: World, x: Id, answer: Answer, safe: set<Id>)
    requires x in w.executors && Honest(w, Lookup(x, answer))
    ensures var pc := AfterLookup(w.executors[x], answer, safe);
            && (pc.Crossing? ==> w.executors[x].key !in w.stored)
            && (pc.Holding? ==> Execution.Truthful(w.stored, w.executors[x].key, pc.status, pc.effect))
  {}

  lemma StepKeepsOutcomes(w: World, step: Step, safe: set<Id>)
    requires CallInv(w, safe) && OutcomeInv(w) && Honest(w, step)
    ensures OutcomeInv(Next(w, step, safe))
  {
    hide CallInv, OutcomeInv, Started, Reconciled, Crossed, Apply, AfterLookup, Execution.Truthful;
    match step {
      case Transact(tx) => TransactKeepsOutcomes(w, tx, safe);
      case StartExecute(_, _, _, _, _, _) => StartKeepsOutcomes(w, step, safe);
      case StartReconcile(_, _, _, _, _) => ReconcileKeepsOutcomes(w, step, safe);
      case Lookup(x, answer) =>
        if x in w.executors && w.executors[x].pc.Looking? {
          LookupIsTruthful(w, x, answer, safe);
          PlacedKeepsOutcomes(w, x, AfterLookup(w.executors[x], answer, safe));
        }
      case Cross(x, breakers, choice) =>
        if x in w.executors && w.executors[x].pc.Crossing? && choice.Sensible() {
          CrossKeepsOutcomes(w, x, breakers, choice);
        }
      case Finish(x) =>
        if x in w.executors && w.executors[x].pc.Holding? { FinishKeepsOutcomes(w, x, safe); }
      case Crash(x) =>
        if x in w.executors { PlacedKeepsOutcomes(w, x, Done); }
    }
  }

  lemma {:induction false} RunsKeepOutcomes(w: World, steps: seq<Step>, safe: set<Id>)
    requires CallInv(w, safe) && OutcomeInv(w) && HonestRun(w, steps, safe)
    ensures OutcomeInv(Runs(w, steps, safe))
  {
    hide CallInv, OutcomeInv, Next, Honest;
    if steps != [] {
      RunsKeepOutcomes(w, steps[..|steps| - 1], safe);
      RunsKeepCalls(w, steps[..|steps| - 1], safe);
      StepKeepsOutcomes(Runs(w, steps[..|steps| - 1], safe), steps[|steps| - 1], safe);
    }
  }

  /** With crashes and retries anywhere but one live executor a key at a time, faithful lookups
      and no operator resolution: a recorded success or conflict is the provider's stored
      outcome for the key, and a recorded failure means that the provider stored nothing. */
  lemma RecordedOutcomesAreTrue(w: World, steps: seq<Step>, safe: set<Id>, k: Key)
    requires Initial(w) && HonestRun(w, steps, safe) && k in Runs(w, steps, safe).db.attempts
    ensures var now := Runs(w, steps, safe);
            var attempt := now.db.attempts[k];
            && (attempt.status.Succeeded? ==> k in now.stored && attempt.effect == Some(now.stored[k]) &&
                                              now.stored[k].Accepted?)
            && (attempt.status.Conflict? ==> k in now.stored && attempt.effect == Some(now.stored[k]) &&
                                             now.stored[k].Conflicted?)
            && (attempt.status.Failed? ==> k !in now.stored)
  {
    hide Runs;
    InitialIsOk(w, safe);
    RunsKeepOutcomes(w, steps, safe);
    assert AttemptTrue(Runs(w, steps, safe), k);
  }
}
