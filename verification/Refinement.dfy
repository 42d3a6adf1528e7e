/** An undisturbed execution is a run of the executors' state machine. */
module Refinement {
  import opened Contracts
  import opened Store
  import Frames
  import opened Executors
  import Execution
  import Gateway
  import Outcomes

  /** What a faithful lookup answers. */
  function Truth(stored: map<Key, Effect>, db: Db, id: Id): Answer {
    if id in db.actions && KeyOf(id, db.actions[id]) in stored then Found(stored[KeyOf(id, db.actions[id])])
    else Missing
  }

  /** The steps of one executor from its start to its end; those that do not arise are not
      enabled and leave the world alone. */
  function ExecutionSteps(x: Id, release: Deployment, adapter: Id, p: Id, id: Id, revision: nat,
                          breakers: Gateway.Breakers, answer: Answer, choice: Execution.Choice): seq<Step>
  {
    [StartExecute(x, release, adapter, p, id, revision), Lookup(x, answer), Cross(x, breakers, choice), Finish(x)]
  }

  function ReconciliationSteps(x: Id, release: Deployment, p: Id, id: Id, revision: nat, answer: Answer): seq<Step> {
    [StartReconcile(x, release, p, id, revision), Lookup(x, answer), Finish(x)]
  }

  /** The world shows what was left behind, and every call. */
  ghost predicate Shows(w: World, after: World, e: Execution.Ended) {
    after.db == e.db && after.stored == e.stored && after.calls == w.calls + multiset(e.calls)
  }

  lemma OneStep(w: World, steps: seq<Step>, step: Step, safe: set<Id>)
    ensures Runs(w, steps + [step], safe) == Next(Runs(w, steps, safe), step, safe)
  {
    assert (steps + [step])[..|steps|] == steps;
  }

  lemma NoStep(w: World, safe: set<Id>)
    ensures Runs(w, [], safe) == w
  {}

  lemma FourSteps(w: World, a: Step, b: Step, c: Step, d: Step, safe: set<Id>)
    ensures Runs(w, [a, b, c, d], safe) == Next(Next(Next(Next(w, a, safe), b, safe), c, safe), d, safe)
  {
    hide Next, Runs;
    NoStep(w, safe);
    assert [] + [a] == [a] && [a] + [b] == [a, b] && [a, b] + [c] == [a, b, c] && [a, b, c] + [d] == [a, b, c, d];
    OneStep(w, [], a, safe);
    OneStep(w, [a], b, safe);
    OneStep(w, [a, b], c, safe);
    OneStep(w, [a, b, c], d, safe);
  }

  lemma ThreeSteps(w: World, a: Step, b: Step, c: Step, safe: set<Id>)
    ensures Runs(w, [a, b, c], safe) == Next(Next(Next(w, a, safe), b, safe), c, safe)
  {
    hide Next, Runs;
    NoStep(w, safe);
    assert [] + [a] == [a] && [a] + [b] == [a, b] && [a, b] + [c] == [a, b, c];
    OneStep(w, [], a, safe);
    OneStep(w, [a], b, safe);
    OneStep(w, [a, b], c, safe);
  }

  /** Nobody is there to move. */
  lemma Absent(w: World, x: Id, answer: Answer, breakers: Gateway.Breakers, choice: Execution.Choice, safe: set<Id>)
    requires x !in w.executors
    ensures Next(w, Lookup(x, answer), safe) == w
    ensures Next(w, Cross(x, breakers, choice), safe) == w
    ensures Next(w, Finish(x), safe) == w
  {}

  /** A report is written and the executor is done. */
  lemma FinishReports(w: World, x: Id, safe: set<Id>, report: Execution.Report, start: World, calls: seq<Key>)
    requires x in w.executors && w.executors[x].pc == Holding(report.status, report.effect)
    requires w.calls == start.calls + multiset(calls)
    ensures Shows(start, Next(w, Finish(x), safe), Execution.Reported(w.db, w.stored, calls, w.executors[x].key, report))
  {
    hide Execution.Record;
  }

  lemma CallIsCounted(calls: multiset<Key>, key: Key)
    ensures calls + multiset([]) == calls && calls + multiset([key]) == calls + multiset{key}
  {}

  /** The second authorization, the provider call and the recording. */
  lemma CrossingShows(w: World, x: Id, breakers: Gateway.Breakers, choice: Execution.Choice, safe: set<Id>, start: World)
    requires x in w.executors && w.executors[x].pc.Crossing? && choice.Sensible() && w.calls == start.calls
    ensures var e := w.executors[x];
            Shows(start, Next(Next(w, Cross(x, breakers, choice), safe), Finish(x), safe),
                  Execution.CrossedOver(w.db, w.stored, choice, e.release, e.process, e.request, e.revision, breakers, e.key))
  {
    hide Execution.Cross, Shows, Execution.Reported;
    var e := w.executors[x];
    CallIsCounted(w.calls, e.key);
    var mid := Next(w, Cross(x, breakers, choice), safe);
    CrossIsCrossed(w, x, breakers, choice, safe);
    var verdict := Execution.Cross(w.db, e.release, e.process, e.request, e.revision, breakers);
    if verdict.Err? {
      CrossRefused(w, x, breakers, choice, safe, start);
    } else if verdict.value.Blocked? {
      FinishReports(mid, x, safe, Execution.Report(Failed, None), start, []);
    } else {
      var outcome := Execution.Answers(w.stored, e.key, choice);
      FinishReports(mid, x, safe, Execution.Report(Execution.StatusOf(outcome), Execution.EffectOf(outcome)), start, [e.key]);
    }
  }

  lemma CrossIsCrossed(w: World, x: Id, breakers: Gateway.Breakers, choice: Execution.Choice, safe: set<Id>)
    requires x in w.executors && w.executors[x].pc.Crossing? && choice.Sensible()
    ensures Next(w, Cross(x, breakers, choice), safe) == Crossed(w, x, breakers, choice)
  {
    hide Crossed;
  }

  lemma CrossRefused(w: World, x: Id, breakers: Gateway.Breakers, choice: Execution.Choice, safe: set<Id>, start: World)
    requires x in w.executors && w.calls == start.calls
    requires var e := w.executors[x]; Execution.Cross(w.db, e.release, e.process, e.request, e.revision, breakers).Err?
    ensures var e := w.executors[x];
            var error := Execution.Cross(w.db, e.release, e.process, e.request, e.revision, breakers).error;
            Shows(start, Next(Crossed(w, x, breakers, choice), Finish(x), safe),
                  Execution.Ended(w.db, w.stored, [], Err(error)))
  {
    hide Execution.Cross;
  }

  // --------------------------------------------------------------- execution

  /** An executor with an old attempt asks first, and goes on to call exactly when nothing is
      known and the adapter is idempotent. */
  lemma RecoveryShows(w: World, x: Id, breakers: Gateway.Breakers, choice: Execution.Choice, safe: set<Id>, start: World)
    requires x in w.executors && w.executors[x].pc.Looking? && !w.executors[x].reconciling
    requires choice.Sensible() && w.calls == start.calls
    ensures var e := w.executors[x];
            var answer := if e.key in w.stored then Found(w.stored[e.key]) else Missing;
            Shows(start, Next(Next(Next(w, Lookup(x, answer), safe), Cross(x, breakers, choice), safe), Finish(x), safe),
                  if e.key in w.stored
                  then Execution.Reported(w.db, w.stored, [], e.key, Execution.ReportOf(w.stored[e.key]))
                  else if e.adapter !in safe
                  then Execution.Reported(w.db, w.stored, [], e.key, Execution.Report(Unknown, None))
                  else Execution.CrossedOver(
                    w.db, w.stored, choice, e.release, e.process, e.request, e.revision, breakers, e.key))
  {
    hide Shows, Execution.Reported, Execution.CrossedOver, Crossed;
    var e := w.executors[x];
    var answer := if e.key in w.stored then Found(w.stored[e.key]) else Missing;
    var asked := Next(w, Lookup(x, answer), safe);
    assert asked == Placed(w, x, AfterLookup(e, answer, safe));
    CallIsCounted(w.calls, e.key);
    if asked.executors[x].pc.Crossing? {
      CrossingShows(asked, x, breakers, choice, safe, start);
    } else {
      assert Next(asked, Cross(x, breakers, choice), safe) == asked;
      FinishReports(asked, x, safe, Execution.Report(asked.executors[x].pc.status, asked.executors[x].pc.effect), start, []);
    }
  }

  lemma StartShows(w: World, x: Id, release: Deployment, adapter: Id, p: Id, id: Id, revision: nat)
    requires x !in w.executors
    ensures var r := Execution.Reserve(w.db, release, adapter, p, id, revision);
            var started := Started(w, StartExecute(x, release, adapter, p, id, revision));
            if r.Err? || r.value.1.AlreadyFinal? then started == w
            else
              && id in w.db.actions && started.db == r.value.0 && started.stored == w.stored && started.calls == w.calls
              && x in started.executors
              && started.executors[x] ==
                 Executor(release, adapter, p, id, revision, KeyOf(id, w.db.actions[id]), false,
                          if r.value.1.NewAttempt? then Crossing else Looking)
  {
    hide Execution.Reserve;
    var r := Execution.Reserve(w.db, release, adapter, p, id, revision);
    if r.Ok? && !r.value.1.AlreadyFinal? { NewIffInserted(w.db, release, adapter, p, id, revision); }
  }

  /** From whatever world: an execution without crash or interference, on a provider that looks
      up faithfully, is this executor's run, with the same database, effects and calls. */
  lemma ExecutionIsARun(w: World, x: Id, safe: set<Id>, adapter: Id, release: Deployment, p: Id, id: Id,
                        revision: nat, breakers: Gateway.Breakers, choice: Execution.Choice)
    requires x !in w.executors && choice.Sensible()
    ensures Shows(w, Runs(w, ExecutionSteps(x, release, adapter, p, id, revision, breakers, Truth(w.stored, w.db, id), choice),
                          safe),
                  Execution.Executed(w.db, w.stored, choice, adapter in safe, adapter, release, p, id, revision, breakers))
  {
    hide Execution.Reserve, Next, Runs, Started, Execution.CrossedOver, Execution.Reported;
    var answer := Truth(w.stored, w.db, id);
    var start := StartExecute(x, release, adapter, p, id, revision);
    FourSteps(w, start, Lookup(x, answer), Cross(x, breakers, choice), Finish(x), safe);
    StartIsStarted(w, start, safe);
    StartShows(w, x, release, adapter, p, id, revision);
    CallIsCounted(w.calls, Key(0, 0, 0, Payload("", Null)));
    var r := Execution.Reserve(w.db, release, adapter, p, id, revision);
    if r.Ok? { Frames.FinalReserveFinds(w.db, release, adapter, p, id, revision); }
    if r.Err? || r.value.1.AlreadyFinal? {
      Absent(w, x, answer, breakers, choice, safe);
    } else {
      hide Shows;
      var started := Started(w, start);
      if r.value.1.NewAttempt? {
        NoLookup(started, x, answer, safe);
        CrossingShows(started, x, breakers, choice, safe, w);
      } else {
        RecoveryShows(started, x, breakers, choice, safe, w);
      }
    }
  }

  lemma StartIsStarted(w: World, step: Step, safe: set<Id>)
    requires step.StartExecute?
    ensures Next(w, step, safe) == Started(w, step)
  {
    hide Started;
  }

  lemma NoLookup(w: World, x: Id, answer: Answer, safe: set<Id>)
    requires x in w.executors && !w.executors[x].pc.Looking?
    ensures Next(w, Lookup(x, answer), safe) == w
  {}

  // ---------------------------------------------------------- reconciliation

  lemma ReconcileShows(w: World, x: Id, release: Deployment, p: Id, id: Id, revision: nat, safe: set<Id>)
    requires x !in w.executors
    ensures var r := Execution.StartReconcile(w.db, release, p, id, revision);
            var step := StartReconcile(x, release, p, id, revision);
            var started := Next(w, step, safe);
            if r.Err? || r.value.1
            then started == w && (r.Ok? ==> id in w.db.actions && r.value.0 == w.db && KeyOf(id, w.db.actions[id]) in w.db.attempts)
            else
              && id in w.db.actions && started.db == r.value.0 && started.stored == w.stored && started.calls == w.calls
              && x in started.executors && started.executors[x].pc.Looking? && started.executors[x].reconciling
              && started.executors[x].key == KeyOf(id, w.db.actions[id])
  {
    hide Execution.Refusal;
    if Execution.StartReconcile(w.db, release, p, id, revision).Ok? { Frames.Found(w.db, release, p, id, revision, false); }
  }

  lemma AskingShows(w: World, x: Id, safe: set<Id>, start: World)
    requires x in w.executors && w.executors[x].pc.Looking? && w.executors[x].reconciling && w.calls == start.calls
    ensures var key := w.executors[x].key;
            var answer := if key in w.stored then Found(w.stored[key]) else Missing;
            Shows(start, Next(Next(w, Lookup(x, answer), safe), Finish(x), safe),
                  Execution.Reported(w.db, w.stored, [], key,
                                     if key in w.stored then Execution.ReportOf(w.stored[key])
                                     else Execution.Report(Unknown, None)))
  {
    hide Shows, Execution.Reported;
    var e := w.executors[x];
    var answer := if e.key in w.stored then Found(w.stored[e.key]) else Missing;
    var asked := Next(w, Lookup(x, answer), safe);
    assert asked == Placed(w, x, AfterLookup(e, answer, safe));
    CallIsCounted(w.calls, e.key);
    FinishReports(asked, x, safe, Execution.Report(asked.executors[x].pc.status, asked.executors[x].pc.effect), start, []);
  }

  /** A reconciliation without crash or interference is this executor's run: it calls nobody. */
  lemma ReconciliationIsARun(w: World, x: Id, safe: set<Id>, release: Deployment, p: Id, id: Id, revision: nat)
    requires x !in w.executors
    ensures Shows(w, Runs(w, ReconciliationSteps(x, release, p, id, revision, Truth(w.stored, w.db, id)), safe),
                  Execution.Reconciliation(w.db, w.stored, release, p, id, revision))
  {
    hide Execution.StartReconcile, Next, Runs, Execution.Reported;
    var answer := Truth(w.stored, w.db, id);
    var start := StartReconcile(x, release, p, id, revision);
    ThreeSteps(w, start, Lookup(x, answer), Finish(x), safe);
    ReconcileShows(w, x, release, p, id, revision, safe);
    CallIsCounted(w.calls, Key(0, 0, 0, Payload("", Null)));
    var r := Execution.StartReconcile(w.db, release, p, id, revision);
    if r.Err? || r.value.1 {
      Absent(w, x, answer, Gateway.Breakers(false, {}, false), Execution.RaiseFailure, safe);
    } else {
      hide Shows;
      AskingShows(Next(w, start, safe), x, safe, w);
    }
  }

  // -------------------------------------------------------- when it calls

  /** A final attempt is only reported. A new attempt calls exactly when the crossing is allowed.
      An old one calls only if, besides, the adapter is idempotent and nothing is stored for the
      key. Nothing is ever called twice, and nothing but this key. */
  lemma CallsExactly(db: Db, stored: map<Key, Effect>, choice: Execution.Choice, idempotent: bool, adapter: Id,
                     release: Deployment, p: Id, id: Id, revision: nat, breakers: Gateway.Breakers)
    requires Execution.Reserve(db, release, adapter, p, id, revision).Ok?
    ensures id in db.actions
    ensures var (reserved, kind) := Execution.Reserve(db, release, adapter, p, id, revision).value;
            var key := KeyOf(id, db.actions[id]);
            var ended := Execution.Executed(db, stored, choice, idempotent, adapter, release, p, id, revision, breakers);
            && (ended.calls == [] || ended.calls == [key])
            && (ended.calls == [key] <==>
                  Execution.Cross(reserved, release, p, id, revision, breakers) == Ok(Execution.MayCall) &&
                  (key !in db.attempts ||
                   (!IsFinal(db.attempts[key].status) && idempotent && key !in stored)))
            && (ended.calls == [] ==> ended.stored == stored)
  {
    hide Execution.Reserve, Execution.Cross, Execution.Answers, Execution.StatusOf, Execution.EffectOf, Execution.Record;
    NewIffInserted(db, release, adapter, p, id, revision);
    Frames.FinalReserveFinds(db, release, adapter, p, id, revision);
    KindOf(db, release, adapter, p, id, revision);
  }

  lemma KindOf(db: Db, release: Deployment, adapter: Id, p: Id, id: Id, revision: nat)
    requires Execution.Reserve(db, release, adapter, p, id, revision).Ok? && id in db.actions
    ensures var key := KeyOf(id, db.actions[id]);
            Execution.Reserve(db, release, adapter, p, id, revision).value.1.AlreadyFinal? <==>
              key in db.attempts && IsFinal(db.attempts[key].status)
  {
    hide Execution.Refusal;
  }

  // -------------------------------------------------------- what it answers

  lemma ReportIsStored(db: Db, stored: map<Key, Effect>, calls: seq<Key>, key: Key, report: Execution.Report)
    requires key in db.attempts && key.request in db.actions && !IsFinal(db.attempts[key].status)
    ensures var ended := Execution.Reported(db, stored, calls, key, report);
            && key in ended.db.attempts && ended.db.attempts[key].status == report.status
            && ended.db.attempts[key].effect == report.effect
  {}

  lemma FoundIsTruthful(stored: map<Key, Effect>, key: Key)
    requires key in stored
    ensures var report := Execution.ReportOf(stored[key]);
            Execution.Truthful(stored, key, report.status, report.effect)
  {}

  /** An attempt in flight: it is there, not final, and a new one has nothing stored. */
  lemma ReservedAttempt(db: Db, stored: map<Key, Effect>, release: Deployment, adapter: Id, p: Id, id: Id, revision: nat)
    requires Execution.Reserve(db, release, adapter, p, id, revision).Ok?
    requires !Execution.Reserve(db, release, adapter, p, id, revision).value.1.AlreadyFinal?
    requires forall k :: k in stored ==> k in db.attempts
    ensures id in db.actions
    ensures var (after, kind) := Execution.Reserve(db, release, adapter, p, id, revision).value;
            var key := KeyOf(id, db.actions[id]);
            && id in after.actions && key in after.attempts && !IsFinal(after.attempts[key].status)
            && (kind.NewAttempt? ==> key !in stored)
  {
    hide Execution.Reserve, Execution.WithBoth, Execution.PolicyRefusal;
    Frames.ReserveIsBoth(db, release, adapter, p, id, revision);
    NewIffInserted(db, release, adapter, p, id, revision);
    Frames.ReserveFindsRow(db, release, adapter, p, id, revision);
    var key := KeyOf(id, db.actions[id]);
    BothAddsAttempt(db, id, Executing, if key in db.attempts then db.attempts[key] else Attempt(adapter, Executing, None));
  }

  /** What an undisturbed execution answers is what its attempt records; a final attempt is only
      reported; otherwise the answer is true of the provider. */
  lemma ExecutionAnswers(db: Db, stored: map<Key, Effect>, choice: Execution.Choice, idempotent: bool, adapter: Id,
                         release: Deployment, p: Id, id: Id, revision: nat, breakers: Gateway.Breakers)
    requires choice.Sensible() && forall k :: k in stored ==> k in db.attempts
    requires Execution.Executed(db, stored, choice, idempotent, adapter, release, p, id, revision, breakers).answer.Ok?
    ensures id in db.actions
    ensures var ended := Execution.Executed(db, stored, choice, idempotent, adapter, release, p, id, revision, breakers);
            var key, report := KeyOf(id, db.actions[id]), ended.answer.value;
            && key in ended.db.attempts
            && ended.db.attempts[key].status == report.status && ended.db.attempts[key].effect == report.effect
            && (if key in db.attempts && IsFinal(db.attempts[key].status)
                then ended.db == db && ended.stored == stored && ended.calls == [] &&
                     report == Execution.Report(db.attempts[key].status, db.attempts[key].effect)
                else Execution.Truthful(ended.stored, key, report.status, report.effect))
  {
    hide Execution.Reserve, Execution.CrossedOver, Execution.Reported, Execution.ReportOf, Execution.Truthful;
    Frames.FinalReserveFinds(db, release, adapter, p, id, revision);
    KindOf(db, release, adapter, p, id, revision);
    var (after, kind) := Execution.Reserve(db, release, adapter, p, id, revision).value;
    var key := KeyOf(id, db.actions[id]);
    if !kind.AlreadyFinal? {
      ReservedAttempt(db, stored, release, adapter, p, id, revision);
      if kind.OldAttempt? && key in stored {
        ReportIsStored(after, stored, [], key, Execution.ReportOf(stored[key]));
        FoundIsTruthful(stored, key);
        ReportedAnswers(after, stored, [], key, Execution.ReportOf(stored[key]));
      } else if kind.OldAttempt? && !idempotent {
        ReportIsStored(after, stored, [], key, Execution.Report(Unknown, None));
        ReportedAnswers(after, stored, [], key, Execution.Report(Unknown, None));
        UnknownIsTruthful(stored, key);
      } else {
        CrossedAnswers(after, stored, choice, release, p, id, revision, breakers, key);
      }
    }
  }

  lemma UnknownIsTruthful(stored: map<Key, Effect>, key: Key)
    ensures Execution.Truthful(stored, key, Unknown, None)
  {}

  lemma ReportedAnswers(db: Db, stored: map<Key, Effect>, calls: seq<Key>, key: Key, report: Execution.Report)
    ensures var ended := Execution.Reported(db, stored, calls, key, report);
            ended.answer == Ok(report) && ended.stored == stored
  {}

  lemma CrossedAnswers(db: Db, stored: map<Key, Effect>, choice: Execution.Choice, release: Deployment, p: Id, id: Id,
                       revision: nat, breakers: Gateway.Breakers, key: Key)
    requires key in db.attempts && key.request in db.actions && !IsFinal(db.attempts[key].status)
    requires key !in stored && choice.Sensible()
    requires Execution.CrossedOver(db, stored, choice, release, p, id, revision, breakers, key).answer.Ok?
    ensures var ended := Execution.CrossedOver(db, stored, choice, release, p, id, revision, breakers, key);
            && key in ended.db.attempts && ended.db.attempts[key].status == ended.answer.value.status
            && ended.db.attempts[key].effect == ended.answer.value.effect
            && Execution.Truthful(ended.stored, key, ended.answer.value.status, ended.answer.value.effect)
  {
    hide Execution.Cross, Execution.Reported, Execution.Answers, Execution.Stores, Execution.StatusOf, Execution.EffectOf,
         Execution.Truthful;
    var outcome := Execution.Answers(stored, key, choice);
    var report := Execution.Report(Execution.StatusOf(outcome), Execution.EffectOf(outcome));
    var after := Execution.Stores(stored, key, choice);
    Outcomes.AnswersAreTruthful(stored, key, choice);
    ReportIsStored(db, after, [key], key, report);
    ReportedAnswers(db, after, [key], key, report);
    ReportIsStored(db, stored, [], key, Execution.Report(Failed, None));
    ReportedAnswers(db, stored, [], key, Execution.Report(Failed, None));
    BlockedIsTruthful(stored, key);
  }

  lemma BlockedIsTruthful(stored: map<Key, Effect>, key: Key)
    requires key !in stored
    ensures Execution.Truthful(stored, key, Failed, None)
  {}
}
