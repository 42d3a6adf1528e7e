/** Crashing, overlapping executors around a provider, and the calls they make. */
module Executors {
  import opened Contracts
  import opened Store
  import opened Protocol
  import opened Frames
  import opened CoreInvariant
  import Evolution
  import Footprints
  import Gateway
  import Execution

  // ---------------------------------------------------------------- machine

  /** Where an executor stands between its transactions. */
  datatype Pc =
    | Looking
    | Crossing
    | Holding(status: ActionStatus, effect: Option<Effect>)
    | Done

  datatype Executor = Executor(
    release: Deployment, adapter: Id, process: Id, request: Id, revision: nat, key: Key,
    reconciling: bool, pc: Pc)

  /** A provider lookup fails, finds nothing, or finds an outcome. */
  datatype Answer = Raised | Missing | Found(effect: Effect)

  /** `inserter` names the executor whose transaction created an attempt; `calls` logs the
      provider calls and `effects` the outcomes stored by them. */
  datatype World = World(
    db: Db,
    executors: map<Id, Executor>,
    inserter: map<Key, Id>,
    stored: map<Key, Effect>,
    calls: multiset<Key>,
    effects: multiset<Key>)

  datatype Step =
    | Transact(tx: Tx)
    | StartExecute(x: Id, release: Deployment, adapter: Id, process: Id, request: Id, revision: nat)
    | StartReconcile(x: Id, release: Deployment, process: Id, request: Id, revision: nat)
    | Lookup(x: Id, answer: Answer)
    | Cross(x: Id, breakers: Gateway.Breakers, choice: Execution.Choice)
    | Finish(x: Id)
    | Crash(x: Id)

  predicate IsExecutorTx(tx: Tx) { tx.Reserve? || tx.Record? || tx.Reconcile? }

  function Placed(w: World, x: Id, pc: Pc): World
    requires x in w.executors
  {
    w.(executors := w.executors[x := w.executors[x].(pc := pc)])
  }

  /** A new executor, which may have inserted the attempt of its key. */
  function Joined(w: World, x: Id, e: Executor, db: Db, isNew: bool): World {
    w.(db := db, executors := w.executors[x := e],
       inserter := if isNew then w.inserter[e.key := x] else w.inserter)
  }

  ghost function Started(w: World, step: Step): World
    requires step.StartExecute?
  {
    var r := Execution.Reserve(w.db, step.release, step.adapter, step.process, step.request, step.revision);
    if step.x in w.executors || r.Err? || r.value.1.AlreadyFinal? || step.request !in w.db.actions then w
    else
      var key := KeyOf(step.request, w.db.actions[step.request]);
      var isNew := r.value.1.NewAttempt?;
      var x := Executor(step.release, step.adapter, step.process, step.request, step.revision, key, false,
                        if isNew then Crossing else Looking);
      Joined(w, step.x, x, r.value.0, isNew)
  }

  ghost function Reconciled(w: World, step: Step): World
    requires step.StartReconcile?
  {
    var r := Execution.StartReconcile(w.db, step.release, step.process, step.request, step.revision);
    if step.x in w.executors || r.Err? || r.value.1 || step.request !in w.db.actions then w
    else
      var key := KeyOf(step.request, w.db.actions[step.request]);
      var adapter := if key in w.db.attempts then w.db.attempts[key].adapter else 0;
      Joined(w, step.x, Executor(step.release, adapter, step.process, step.request, step.revision, key, true, Looking),
             r.value.0, false)
  }

  /** Without an outcome, only an idempotent adapter may be called again, and never by
      reconciliation. */
  function AfterLookup(x: Executor, answer: Answer, safe: set<Id>): Pc {
    match answer
    case Raised => Holding(Unknown, None)
    case Found(e) => Holding(Execution.StatusOf(Execution.OutcomeOf(e)), Some(e))
    case Missing => if !x.reconciling && x.adapter in safe then Crossing else Holding(Unknown, None)
  }

  ghost function Crossed(w: World, x: Id, breakers: Gateway.Breakers, choice: Execution.Choice): World
    requires x in w.executors
  {
    var e := w.executors[x];
    var verdict := Execution.Cross(w.db, e.release, e.process, e.request, e.revision, breakers);
    if verdict.Err? then Placed(w, x, Done)
    else if verdict.value.Blocked? then Placed(w, x, Holding(Failed, None))
    else
      var outcome := Execution.Answers(w.stored, e.key, choice);
      var stored := Execution.Stores(w.stored, e.key, choice);
      Placed(w, x, Holding(Execution.StatusOf(outcome), Execution.EffectOf(outcome))).(
        stored := stored,
        calls := w.calls + multiset{e.key},
        effects := if stored == w.stored then w.effects else w.effects + multiset{e.key})
  }

  /** A step that is not enabled leaves the world alone. */
  ghost function Next(w: World, step: Step, safe: set<Id>): World {
    match step
    case Transact(tx) => if IsExecutorTx(tx) then w else w.(db := Apply(w.db, tx))
    case StartExecute(_, _, _, _, _, _) => Started(w, step)
    case StartReconcile(_, _, _, _, _) => Reconciled(w, step)
    case Lookup(x, answer) =>
      if x !in w.executors || !w.executors[x].pc.Looking? then w
      else Placed(w, x, AfterLookup(w.executors[x], answer, safe))
    case Cross(x, breakers, choice) =>
      if x !in w.executors || !w.executors[x].pc.Crossing? || !choice.Sensible() then w
      else Crossed(w, x, breakers, choice)
    case Finish(x) =>
      if x !in w.executors || !w.executors[x].pc.Holding? then w
      else
        var e := w.executors[x];
        Placed(w, x, Done).(db := Execution.Record(w.db, e.key, e.pc.status, e.pc.effect))
    case Crash(x) => if x !in w.executors then w else Placed(w, x, Done)
  }

  ghost function Runs(w: World, steps: seq<Step>, safe: set<Id>): World {
    if steps == [] then w else Next(Runs(w, steps[..|steps| - 1], safe), steps[|steps| - 1], safe)
  }

  /** A database that no executor has worked on yet. */
  ghost predicate Initial(w: World) {
    && CoreInv(w.db) && w.db.attempts == map[]
    && w.executors == map[] && w.inserter == map[] && w.stored == map[]
    && w.calls == multiset{} && w.effects == multiset{}
  }

  // ------------------------------------------------------------- call counts

  /** An executor works on an existing attempt with the attempt's adapter. */
  ghost predicate Attached(w: World, x: Id)
    requires x in w.executors
  {
    var e := w.executors[x];
    && e.key in w.db.attempts && w.db.attempts[e.key].adapter == e.adapter
    && (e.pc.Holding? ==> e.pc.status in {Succeeded, Failed, Conflict, Unknown})
    && (e.reconciling ==> !e.pc.Crossing?)
  }

  /** Without idempotency only the executor that inserted the attempt can be about to call, and
      only if nobody has called yet. */
  ghost predicate MayStillCall(w: World, x: Id, safe: set<Id>)
    requires x in w.executors
  {
    var e := w.executors[x];
    e.pc.Crossing? && e.adapter !in safe ==>
      e.key in w.inserter && w.inserter[e.key] == x && w.calls[e.key] == 0
  }

  ghost predicate CallsOk(w: World, k: Key, safe: set<Id>) {
    && (k !in w.db.attempts ==> w.calls[k] == 0 && k !in w.stored)
    && (k in w.db.attempts && w.db.attempts[k].adapter !in safe ==> w.calls[k] <= 1)
    && w.effects[k] == (if k in w.stored then 1 else 0)
  }

  ghost predicate CallInv(w: World, safe: set<Id>) {
    && CoreInv(w.db)
    && (forall x :: x in w.executors ==> Attached(w, x) && MayStillCall(w, x, safe))
    && (forall k :: CallsOk(w, k, safe))
  }

  /** The parts of the world besides the database stay, and the database evolves. */
  lemma DbStepKeepsCalls(w: World, after: World, safe: set<Id>)
    requires CallInv(w, safe) && CoreInv(after.db)
    requires after == w.(db := after.db) && after.db.attempts.Keys == w.db.attempts.Keys
    requires forall k :: k in w.db.attempts ==> after.db.attempts[k].adapter == w.db.attempts[k].adapter
    ensures CallInv(after, safe)
  {
    hide CoreInv;
    forall x | x in after.executors ensures Attached(after, x) && MayStillCall(after, x, safe) {
      assert Attached(w, x) && MayStillCall(w, x, safe);
    }
    forall k ensures CallsOk(after, k, safe) {
      assert CallsOk(w, k, safe);
    }
  }

  /** An executor moves on without calling. */
  lemma PlacedKeepsCalls(w: World, x: Id, pc: Pc, safe: set<Id>)
    requires CallInv(w, safe) && x in w.executors
    requires pc.Holding? ==> pc.status in {Succeeded, Failed, Conflict, Unknown}
    requires pc.Crossing? ==> w.executors[x].adapter in safe && !w.executors[x].reconciling
    ensures CallInv(Placed(w, x, pc), safe)
  {
    hide CoreInv;
    var after := Placed(w, x, pc);
    forall y | y in after.executors ensures Attached(after, y) && MayStillCall(after, y, safe) {
      assert Attached(w, y) && MayStillCall(w, y, safe);
    }
    forall k ensures CallsOk(after, k, safe) {
      assert CallsOk(w, k, safe);
    }
  }

  lemma TransactKeepsCalls(w: World, tx: Tx, safe: set<Id>)
    requires CallInv(w, safe)
    ensures CallInv(Next(w, Transact(tx), safe), safe)
  {
    if !IsExecutorTx(tx) {
      hide CoreInv, Apply;
      ApplyKeepsCore(w.db, tx);
      Evolution.ApplyEvolves(w.db, tx);
      AttemptsPersist(w.db, tx);
      DbStepKeepsCalls(w, w.(db := Apply(w.db, tx)), safe);
    }
  }

  /** Outside executions no attempt appears, disappears or changes its adapter. */
  lemma AttemptsPersist(db: Db, tx: Tx)
    requires !IsExecutorTx(tx)
    ensures Apply(db, tx).attempts.Keys == db.attempts.Keys
    ensures forall k :: k in db.attempts ==> Apply(db, tx).attempts[k].adapter == db.attempts[k].adapter
    ensures !tx.Resolve? ==> Apply(db, tx).attempts == db.attempts
  {
    if tx.Resolve? {
      ResolvePersists(db, tx);
    } else {
      hide Apply;
      Footprints.KeepsAttempts(db, tx);
    }
  }

  lemma ResolvePersists(db: Db, tx: Tx)
    requires tx.Resolve?
    ensures Apply(db, tx).attempts.Keys == db.attempts.Keys
    ensures forall k :: k in db.attempts ==> Apply(db, tx).attempts[k].adapter == db.attempts[k].adapter
  {
    hide Enqueued;
  }

  lemma JoinedKeepsCalls(w: World, x: Id, e: Executor, db: Db, isNew: bool, safe: set<Id>)
    requires CallInv(w, safe) && CoreInv(db) && x !in w.executors
    requires e.key in db.attempts && db.attempts[e.key].adapter == e.adapter
    requires db.attempts.Keys == w.db.attempts.Keys + {e.key}
    requires forall k :: k in w.db.attempts ==> db.attempts[k].adapter == w.db.attempts[k].adapter
    requires isNew <==> e.key !in w.db.attempts
    requires e.pc == if isNew then Crossing else Looking
    requires e.reconciling ==> !isNew
    ensures CallInv(Joined(w, x, e, db, isNew), safe)
  {
    hide CoreInv;
    var after := Joined(w, x, e, db, isNew);
    assert CallsOk(w, e.key, safe);
    forall y | y in after.executors ensures Attached(after, y) && MayStillCall(after, y, safe) {
      if y in w.executors { assert Attached(w, y) && MayStillCall(w, y, safe); }
    }
    forall k ensures CallsOk(after, k, safe) {
      assert CallsOk(w, k, safe);
    }
  }

  lemma BothAddsAttempt(db: Db, id: Id, status: ActionStatus, attempt: Attempt)
    requires id in db.actions
    requires KeyOf(id, db.actions[id]) in db.attempts ==>
               attempt.adapter == db.attempts[KeyOf(id, db.actions[id])].adapter
    ensures var after, key := Execution.WithBoth(db, id, status, attempt), KeyOf(id, db.actions[id]);
            && after.attempts.Keys == db.attempts.Keys + {key} && after.attempts[key] == attempt
            && (forall k :: k in db.attempts ==> after.attempts[k].adapter == db.attempts[k].adapter)
            && (forall k :: k in db.attempts && k != key ==> after.attempts[k] == db.attempts[k])
  {}

  lemma StartKeepsCalls(w: World, step: Step, safe: set<Id>)
    requires CallInv(w, safe) && step.StartExecute?
    ensures CallInv(Started(w, step), safe)
  {
    hide CoreInv, Attached, MayStillCall, CallsOk, Execution.Reserve, Execution.PolicyRefusal, Joined,
         Execution.WithBoth;
    var r := Execution.Reserve(w.db, step.release, step.adapter, step.process, step.request, step.revision);
    if step.x !in w.executors && r.Ok? && !r.value.1.AlreadyFinal? {
      ReserveKeepsCore(w.db, step.release, step.adapter, step.process, step.request, step.revision);
      ReserveIsBoth(w.db, step.release, step.adapter, step.process, step.request, step.revision);
      NewIffInserted(w.db, step.release, step.adapter, step.process, step.request, step.revision);
      var key := KeyOf(step.request, w.db.actions[step.request]);
      var isNew := r.value.1.NewAttempt?;
      BothAddsAttempt(w.db, step.request, Executing,
                      if key in w.db.attempts then w.db.attempts[key] else Attempt(step.adapter, Executing, None));
      JoinedKeepsCalls(
        w, step.x, Executor(step.release, step.adapter, step.process, step.request, step.revision, key, false,
                            if isNew then Crossing else Looking), r.value.0, isNew, safe);
    }
  }

  /** A new attempt was inserted exactly when there was none. */
  lemma NewIffInserted(db: Db, release: Deployment, adapter: Id, p: Id, id: Id, revision: nat)
    requires Execution.Reserve(db, release, adapter, p, id, revision).Ok?
    ensures id in db.actions
    ensures Execution.Reserve(db, release, adapter, p, id, revision).value.1.NewAttempt? <==>
            KeyOf(id, db.actions[id]) !in db.attempts
  {
    hide Execution.Refusal;
    Frames.Found(db, release, p, id, revision, true);
  }

  lemma ReconcileKeepsCalls(w: World, step: Step, safe: set<Id>)
    requires CallInv(w, safe) && step.StartReconcile?
    ensures CallInv(Reconciled(w, step), safe)
  {
    hide CoreInv, Attached, MayStillCall, CallsOk, Execution.StartReconcile, Execution.PolicyRefusal, Joined,
         Execution.WithBoth;
    var r := Execution.StartReconcile(w.db, step.release, step.process, step.request, step.revision);
    if step.x !in w.executors && r.Ok? && !r.value.1 {
      ReconcileKeepsCore(w.db, step.release, step.process, step.request, step.revision);
      ReconcileIsBoth(w.db, step.release, step.process, step.request, step.revision);
      var key := KeyOf(step.request, w.db.actions[step.request]);
      BothAddsAttempt(w.db, step.request, Reconciling, w.db.attempts[key].(status := Reconciling));
      JoinedKeepsCalls(
        w, step.x, Executor(step.release, w.db.attempts[key].adapter, step.process, step.request, step.revision,
                            key, true, Looking), r.value.0, false, safe);
    }
  }

  lemma CrossKeepsCalls(w: World, x: Id, breakers: Gateway.Breakers, choice: Execution.Choice, safe: set<Id>)
    requires CallInv(w, safe) && x in w.executors && w.executors[x].pc.Crossing? && choice.Sensible()
    ensures CallInv(Crossed(w, x, breakers, choice), safe)
  {
    hide CoreInv, Execution.Cross;
    var e := w.executors[x];
    assert Attached(w, x) && MayStillCall(w, x, safe);
    var verdict := Execution.Cross(w.db, e.release, e.process, e.request, e.revision, breakers);
    if verdict.Err? {
      PlacedKeepsCalls(w, x, Done, safe);
    } else if verdict.value.Blocked? {
      PlacedKeepsCalls(w, x, Holding(Failed, None), safe);
    } else {
      CallKeepsCalls(w, x, choice, Crossed(w, x, breakers, choice), safe);
    }
  }

  /** The world after a provider call. */
  ghost predicate Called(w: World, x: Id, choice: Execution.Choice, after: World)
    requires x in w.executors
  {
    var key := w.executors[x].key;
    var outcome := Execution.Answers(w.stored, key, choice);
    after == Placed(w, x, Holding(Execution.StatusOf(outcome), Execution.EffectOf(outcome))).(
      stored := Execution.Stores(w.stored, key, choice),
      calls := w.calls + multiset{key},
      effects := if Execution.Stores(w.stored, key, choice) == w.stored then w.effects
                 else w.effects + multiset{key})
  }

  lemma CallKeepsCalls(w: World, x: Id, choice: Execution.Choice, after: World, safe: set<Id>)
    requires CallInv(w, safe) && x in w.executors && w.executors[x].pc.Crossing? && choice.Sensible()
    requires Called(w, x, choice, after)
    ensures CallInv(after, safe)
  {
    hide CoreInv;
    var key := w.executors[x].key;
    assert Attached(w, x) && MayStillCall(w, x, safe);
    forall y | y in after.executors ensures Attached(after, y) && MayStillCall(after, y, safe) {
      assert Attached(w, y) && MayStillCall(w, y, safe);
    }
    forall k ensures CallsOk(after, k, safe) {
      assert CallsOk(w, k, safe);
      StoresAtMostOne(w.stored, key, choice, k);
    }
  }

  lemma StoresAtMostOne(stored: map<Key, Effect>, key: Key, choice: Execution.Choice, k: Key)
    ensures var after := Execution.Stores(stored, key, choice);
            && (k in after <==> k in stored || (k == key && after != stored))
            && (key in stored ==> after == stored)
  {}

  lemma FinishKeepsCalls(w: World, x: Id, safe: set<Id>)
    requires CallInv(w, safe) && x in w.executors && w.executors[x].pc.Holding?
    ensures CallInv(Next(w, Finish(x), safe), safe)
  {
    hide CoreInv;
    var e := w.executors[x];
    assert Attached(w, x);
    RecordKeepsCore(w.db, e.key, e.pc.status, e.pc.effect);
    PlacedKeepsCalls(w, x, Done, safe);
    DbStepKeepsCalls(Placed(w, x, Done), Next(w, Finish(x), safe), safe);
  }

  lemma StepKeepsCalls(w: World, step: Step, safe: set<Id>)
    requires CallInv(w, safe)
    ensures CallInv(Next(w, step, safe), safe)
  {
    hide CallInv, Started, Reconciled, Crossed, Apply;
    match step {
      case Transact(tx) => TransactKeepsCalls(w, tx, safe);
      case StartExecute(_, _, _, _, _, _) => StartKeepsCalls(w, step, safe);
      case StartReconcile(_, _, _, _, _) => ReconcileKeepsCalls(w, step, safe);
      case Lookup(x, answer) =>
        if x in w.executors && w.executors[x].pc.Looking? {
          PlacedKeepsCalls(w, x, AfterLookup(w.executors[x], answer, safe), safe);
        }
      case Cross(x, breakers, choice) =>
        if x in w.executors && w.executors[x].pc.Crossing? && choice.Sensible() {
          CrossKeepsCalls(w, x, breakers, choice, safe);
        }
      case Finish(x) =>
        if x in w.executors && w.executors[x].pc.Holding? { FinishKeepsCalls(w, x, safe); }
      case Crash(x) =>
        if x in w.executors { PlacedKeepsCalls(w, x, Done, safe); }
    }
  }

  lemma {:induction false} RunsKeepCalls(w: World, steps: seq<Step>, safe: set<Id>)
    requires CallInv(w, safe)
    ensures CallInv(Runs(w, steps, safe), safe)
  {
    hide CallInv, Next;
    if steps != [] {
      RunsKeepCalls(w, steps[..|steps| - 1], safe);
      StepKeepsCalls(Runs(w, steps[..|steps| - 1], safe), steps[|steps| - 1], safe);
    }
  }

  lemma InitialIsOk(w: World, safe: set<Id>)
    requires Initial(w)
    ensures CallInv(w, safe)
  {
    hide CoreInv;
  }

  /** However many executors overlap or crash and whatever lookups answer: an adapter without
      idempotency is called at most once per key ever, and at most one effect is stored per key. */
  lemma AtMostOneCall(w: World, steps: seq<Step>, safe: set<Id>, k: Key)
    requires Initial(w)
    ensures var now := Runs(w, steps, safe);
            && (k !in now.db.attempts ==> now.calls[k] == 0)
            && (k in now.db.attempts && now.db.attempts[k].adapter !in safe ==> now.calls[k] <= 1)
            && now.effects[k] <= 1
  {
    hide Runs;
    InitialIsOk(w, safe);
    RunsKeepCalls(w, steps, safe);
    assert CallsOk(Runs(w, steps, safe), k, safe);
  }

  /** No step of a reconciliation calls the provider. */
  lemma ReconciliationNeverCalls(w: World, steps: seq<Step>, safe: set<Id>, step: Step)
    requires Initial(w)
    requires step.StartReconcile? ||
             ((step.Lookup? || step.Cross? || step.Finish? || step.Crash?) &&
              step.x in Runs(w, steps, safe).executors && Runs(w, steps, safe).executors[step.x].reconciling)
    ensures var now := Runs(w, steps, safe);
            Next(now, step, safe).calls == now.calls && Next(now, step, safe).stored == now.stored
  {
    hide Runs, Crossed, CoreInv;
    InitialIsOk(w, safe);
    RunsKeepCalls(w, steps, safe);
    var now := Runs(w, steps, safe);
    if !step.StartReconcile? { assert Attached(now, step.x); }
  }
}
