/** The scenario checker rejects nothing that could have run: what it demands of the shape of a
    scenario is what every completed run shows. */
module ScenarioExactness {
  import opened Contracts
  import opened Knowledge
  import opened Scenarios
  import opened KernelDriver
  import ScenarioTheorems
  import Transitions

  // ------------------------------------------------------------ references

  /** What the references in a script value name; None where one names nothing. */
  ghost function Referenced(v: Json): set<Option<string>> {
    match v
    case Obj(fields) =>
      if IsReference(fields) then {ReferencedKey(fields)}
      else set k, r | k in fields && r in Referenced(fields[k]) :: r
    case Arr(items) => set i, r | 0 <= i < |items| && r in Referenced(items[i]) :: r
    case _ => {}
  }

  lemma {:induction false} ReferencesExactly(v: Json, known: set<string>)
    ensures ReferencesKnown(v, known) <==> forall r :: r in Referenced(v) ==> r.Some? && r.value in known
    ensures HasReferences(v) <==> Referenced(v) != {}
  {
    match v
    case Obj(fields) =>
      forall k | k in fields { ReferencesExactly(fields[k], known); }
      if IsReference(fields) {
        assert ReferencedKey(fields) in Referenced(v);
      } else {
        assert forall k, r :: k in fields && r in Referenced(fields[k]) ==> r in Referenced(v);
        if k :| k in fields && HasReferences(fields[k]) {
          var r :| r in Referenced(fields[k]);
          assert r in Referenced(v);
        }
      }
    case Arr(items) =>
      forall i | 0 <= i < |items| { ReferencesExactly(items[i], known); }
      assert forall i, r :: 0 <= i < |items| && r in Referenced(items[i]) ==> r in Referenced(v);
      if i :| 0 <= i < |items| && HasReferences(items[i]) {
        var r :| r in Referenced(items[i]);
        assert r in Referenced(v);
      }
    case _ =>
  }

  /** A value that resolves on some facts names only those. */
  lemma {:induction false} ResolvedIsKnown(v: Json, p: Projection)
    requires Resolve(v, p).Some?
    ensures forall r :: r in Referenced(v) ==> r.Some? && (r.value in p.authoritative || r.value in p.claims)
  {
    match v
    case Obj(fields) =>
      if !IsReference(fields) {
        forall k | k in fields { ResolvedIsKnown(fields[k], p); }
      }
    case Arr(items) =>
      forall i | 0 <= i < |items| { ResolvedIsKnown(items[i], p); }
    case _ =>
  }

  /** A reference without a path reads the authoritative fact, and the claim only without one. */
  lemma ReferenceReads(key: string, p: Projection)
    ensures var reference := Obj(map["type" := Str("fact"), "fact_key" := Str(key)]);
            Resolve(reference, p) ==
            if key in p.authoritative then Some(p.authoritative[key])
            else if key in p.claims then Some(p.claims[key]) else None
  {
    var fields := map["type" := Str("fact"), "fact_key" := Str(key)];
    assert IsReference(fields) && ReferencedKey(fields) == Some(key);
  }

  /** Only an object that is marked as a reference reads a fact; any other keeps its keys and
      resolves field by field. */
  lemma PlainObjectsStay(fields: map<string, Json>, p: Projection)
    requires "type" !in fields || fields["type"] != Str("fact")
    ensures match Resolve(Obj(fields), p)
            case Some(resolved) =>
              && resolved.Obj? && resolved.fields.Keys == fields.Keys
              && forall k :: k in fields ==> Resolve(fields[k], p) == Some(resolved.fields[k])
            case None => exists k :: k in fields && Resolve(fields[k], p).None?
  {
    assert !IsReference(fields);
  }

  /** A path indexes lists and texts from either end, and nothing beyond them. */
  lemma PathsIndex(items: seq<Json>, text: string, n: int)
    requires n >= 0
    ensures Follow(Arr(items), [Num(n)]) == if n < |items| then Some(items[n]) else None
    ensures Follow(Arr(items), [Num(-n)]) ==
            if items != [] && n == 0 then Some(items[0])
            else if 1 <= n <= |items| then Some(items[|items| - n]) else None
    ensures Follow(Str(text), [Num(n)]) == if n < |text| then Some(Str([text[n]])) else None
    ensures Follow(Str(text), [Num(-n)]) ==
            if text != [] && n == 0 then Some(Str([text[0]]))
            else if 1 <= n <= |text| then Some(Str([text[|text| - n]])) else None
  {
    assert [Num(n)][1..] == [] && [Num(-n)][1..] == [];
  }

  /** A script never escalates and never replies to reviews, and waits only with a wake. */
  lemma ScriptsAreWellTyped(step: Step, index: nat, events: seq<Id>, attempts: seq<Key>, timers: seq<string>,
                            payload: Payload, now: int)
    ensures var d := ScriptedDecision(step, index, events, attempts, timers, payload, now);
            && Transitions.WellTyped(d) && !d.status.DecideEscalated? && d.reviewIds == []
            && (d.status.DecideActive? <==> d.actions != []) && (d.status.DecideWaiting? <==> d.wakes != [])
  {}

  /** An event can be built exactly if everything in it resolves; then every fact has the value
      its script resolves to, and its key and kind. */
  lemma EventReadsExactly(e: ScenarioEvent, p: Projection)
    ensures match BuildEvent(e, p)
            case None => Resolve(e.payload, p).None? || exists f :: f in e.facts && Resolve(f.value, p).None?
            case Some(facts) =>
              && Resolve(e.payload, p).Some? && |facts| == |e.facts|
              && forall i :: 0 <= i < |facts| ==>
                   && facts[i].key == e.facts[i].key && facts[i].kind == e.facts[i].kind
                   && Resolve(e.facts[i].value, p) == Some(facts[i].value)
  {
    hide Resolve;
  }

  // ----------------------------------------------------------------- shape

  /** Step i fits its neighbours; an action fits its permission, has an adapter, and its literal
      parameters are ones that their model takes. */
  ghost predicate Placed(steps: seq<Step>, env: Env, i: nat)
    requires i < |steps|
  {
    && (i == 0 ==> steps[i].EventStep?)
    && (i + 1 == |steps| ==> steps[i].CompleteStep?)
    && match steps[i]
       case EventStep(t, _) => i > 0 ==> steps[i - 1].WaitForEvent? && steps[i - 1].awaited == t
       case WaitForEvent(t) => i + 1 < |steps| && steps[i + 1].EventStep? && steps[i + 1].eventType == t
       case CompleteStep => i + 1 == |steps|
       case ActionStep(t, a) =>
         && t in env.bindings && t in env.journey.permissions
         && env.journey.permissions[t] == (if a.approve then RequireApproval else Allow)
         && (Referenced(a.parameters) == {} ==> env.journey.encode(t, a.parameters).Some?)
       case _ => true
  }

  ghost predicate Shaped(steps: seq<Step>, env: Env) {
    steps != [] && steps[0].EventStep? && forall i :: 0 <= i < |steps| ==> Placed(steps, env, i)
  }

  /** Between turns: what the last decision left. */
  ghost predicate Left(k: Kernel, steps: seq<Step>) {
    && k.index <= |steps|
    && (k.index == 0 ==> k.pending.Idle?)
    && (k.index > 0 && k.pending.Idle? ==>
          || (steps[k.index - 1].WaitForEvent? && k.wakes == [EventWake(steps[k.index - 1].awaited)])
          || (steps[k.index - 1].CompleteStep? && k.wakes == []))
    && (k.index > 0 && k.status.Completed? ==> steps[k.index - 1].CompleteStep?)
  }

  /** Where the turn at k decides. */
  ghost function DecisionStep(k: Kernel, steps: seq<Step>): nat
    requires k.index < |steps|
  {
    SkipFacts(steps, if k.pending.Idle? then k.index + 1 else k.index)
  }

  /** A turn that succeeds opens with the event its process waited for, and carries a step out. */
  lemma TurnShows(k: Kernel, steps: seq<Step>, env: Env)
    requires k.index < |steps| && KernelTurn(k, steps, env).Ok? && Left(k, steps)
    ensures var d, after := DecisionStep(k, steps), KernelTurn(k, steps, env).value;
            && k.index <= d < |steps| && (k.pending.Idle? ==> k.index < d) && DecidesAt(k, d, steps)
            && CarriedOut(after, k, d, steps, env) && Left(after, steps)
    ensures k.pending.Idle? ==> steps[k.index].EventStep?
    ensures k.pending.Idle? && k.index > 0 ==> steps[k.index - 1] == WaitForEvent(steps[k.index].eventType)
  {
    hide KernelTurn;
    TurnExactly(k, steps, env, DecisionStep(k, steps));
    assert !Misshapen(NoWakeSource, k, DecisionStep(k, steps), steps, env);
    assert !Misshapen(NotWaiting, k, DecisionStep(k, steps), steps, env);
  }

  lemma CarriedOutIsPlaced(after: Kernel, k: Kernel, d: nat, steps: seq<Step>, env: Env)
    requires 0 < d < |steps| && CarriedOut(after, k, d, steps, env)
    requires d + 1 == |steps| ==> after.status.Completed?
    requires d + 1 < |steps| && after.pending.Idle? ==>
               steps[d + 1].EventStep? && steps[d] == WaitForEvent(steps[d + 1].eventType)
    ensures Placed(steps, env, d)
  {
    if steps[d].ActionStep? && Referenced(steps[d].action.parameters) == {} {
      ReferencesExactly(steps[d].action.parameters, {});
      LiteralsResolveToThemselves(steps[d].action.parameters, after.facts);
    }
  }

  lemma {:induction false} CompletedRunIsPlaced(k: Kernel, steps: seq<Step>, env: Env, i: nat)
    requires Left(k, steps) && k.index <= i < |steps| && KernelFrom(k, steps, env).Ok?
    ensures Placed(steps, env, i)
    decreases |steps| - k.index
  {
    hide KernelTurn, Referenced;
    TurnShows(k, steps, env);
    var d, after := DecisionStep(k, steps), KernelTurn(k, steps, env).value;
    if i > d {
      CompletedRunIsPlaced(after, steps, env, i);
    } else if i == d {
      if d + 1 < |steps| { TurnShows(after, steps, env); }
      CarriedOutIsPlaced(after, k, d, steps, env);
    }
  }

  lemma TurnsLackNoCompletion(k: Kernel, steps: seq<Step>, env: Env)
    requires k.index < |steps|
    ensures KernelTurn(k, steps, env) != Err(Malformed(NotCompleted))
  {
    hide KernelTurn;
    if !k.pending.Idle? || steps[k.index].EventStep? {
      TurnExactly(k, steps, env, DecisionStep(k, steps));
    } else {
      TurnExactly(k, steps, env, 0);
    }
  }

  /** Some run of all turns ends without a completed process. */
  ghost predicate EndsOpen(k: Kernel, steps: seq<Step>, env: Env)
    requires k.index <= |steps|
  {
    exists last :: ScenarioTheorems.Reaches(k, last, steps, env) && last.index == |steps| && !last.status.Completed?
  }

  /** A run is refused as not completed exactly if all its turns succeed and its process is not
      completed then. */
  lemma {:induction false} NotCompletedExactly(k: Kernel, steps: seq<Step>, env: Env)
    requires k.index <= |steps|
    ensures KernelFrom(k, steps, env) == Err(Malformed(NotCompleted)) <==> EndsOpen(k, steps, env)
    decreases |steps| - k.index
  {
    hide KernelTurn;
    if k.index == |steps| {
      assert ScenarioTheorems.Reaches(k, k, steps, env);
    } else {
      TurnsLackNoCompletion(k, steps, env);
      var turn := KernelTurn(k, steps, env);
      if turn.Ok? {
        NotCompletedExactly(turn.value, steps, env);
        forall last: Kernel ensures last.index == |steps| ==>
            (ScenarioTheorems.Reaches(k, last, steps, env) <==> ScenarioTheorems.Reaches(turn.value, last, steps, env)) {
        }
      }
    }
  }

  // ----------------------------------------------------------------- names

  ghost function KeysOf(facts: seq<Observation>): set<string> {
    set f | f in facts :: f.key
  }

  /** The step speaks only of what the journey declares. */
  ghost predicate Declared(s: Step, j: Journey) {
    match s
    case EventStep(t, e) =>
      && t in j.supplies && |KeysOf(e.facts)| == |e.facts|
      && (forall f :: f in e.facts ==>
            f.key in j.supplies[t] && f.key in j.factKinds && f.kind in j.factKinds[f.key] && Refers(f.value, j))
      && Refers(e.payload, j)
    case ActionStep(t, a) => t in j.capabilities && Refers(a.parameters, j)
    case WaitForEvent(t) => t in j.wakes
    case FactStep(key, _) => key in j.factKinds
    case _ => true
  }

  ghost predicate Refers(v: Json, j: Journey) {
    forall r :: r in Referenced(v) ==> r.Some? && r.value in j.factKinds
  }

  lemma KeysAppend(facts: seq<Observation>, last: Observation)
    ensures KeysOf(facts + [last]) == KeysOf(facts) + {last.key}
  {
    assert forall f :: f in facts + [last] <==> f in facts || f == last;
  }

  lemma {:induction false} DistinctKeys(facts: seq<Observation>)
    ensures |KeysOf(facts)| <= |facts|
    ensures |KeysOf(facts)| == |facts| <==>
            forall a, b :: 0 <= a < b < |facts| ==> facts[a].key != facts[b].key
  {
    if facts != [] {
      var n := |facts| - 1;
      DistinctKeys(facts[..n]);
      KeysAppend(facts[..n], facts[n]);
      assert facts == facts[..n] + [facts[n]];
      var rest := KeysOf(facts[..n]);
      KeyIsUsed(facts[..n], facts[n].key);
      if facts[n].key in rest { assert rest + {facts[n].key} == rest; }
    }
  }

  lemma KeyIsUsed(facts: seq<Observation>, key: string)
    ensures key in KeysOf(facts) <==> exists a :: 0 <= a < |facts| && facts[a].key == key
  {}

  lemma EventDeclared(t: string, e: ScenarioEvent, j: Journey)
    ensures EventOk(t, e, j) <==> Declared(EventStep(t, e), j)
  {
    hide Referenced;
    DistinctKeys(e.facts);
    ReferencesExactly(e.payload, j.factKinds.Keys);
    forall f | f in e.facts { ReferencesExactly(f.value, j.factKinds.Keys); }
    assert forall f :: f in e.facts <==> exists i :: 0 <= i < |e.facts| && e.facts[i] == f;
  }

  lemma StepDeclared(s: Step, j: Journey)
    ensures StepOk(s, j) <==>
            Declared(s, j) &&
            (s.ActionStep? ==>
               && s.actionType in j.permissions
               && j.permissions[s.actionType] == (if s.action.approve then RequireApproval else Allow)
               && (Referenced(s.action.parameters) == {} ==> j.encode(s.actionType, s.action.parameters).Some?))
  {
    hide Referenced;
    match s {
      case EventStep(t, e) => EventDeclared(t, e, j);
      case ActionStep(_, a) => ReferencesExactly(a.parameters, j.factKinds.Keys);
      case _ =>
    }
  }

  lemma AcceptedIsPlaced(steps: seq<Step>, env: Env, i: nat)
    requires ScenarioTheorems.Compiled(steps, env) && i < |steps|
    ensures Placed(steps, env, i) && Declared(steps[i], env.journey)
  {
    hide StepOk, Declared, Referenced;
    assert StepOk(steps[i], env.journey);
    StepDeclared(steps[i], env.journey);
    if steps[i].WaitForEvent? { assert steps[i + 1].EventStep?; }
  }

  lemma PlacedIsOk(steps: seq<Step>, env: Env, i: nat)
    requires i < |steps| && Placed(steps, env, i) && Declared(steps[i], env.journey)
    ensures StepOk(steps[i], env.journey) && (steps[i].ActionStep? ==> steps[i].actionType in env.bindings)
    ensures steps[i].CompleteStep? <==> i == |steps| - 1
    ensures i > 0 && steps[i].EventStep? ==> steps[i - 1] == WaitForEvent(steps[i].eventType)
    ensures i < |steps| - 1 && steps[i].WaitForEvent? ==> steps[i + 1].EventStep?
  {
    hide StepOk, Declared, Referenced;
    StepDeclared(steps[i], env.journey);
  }

  /** A scenario is accepted and bound exactly if it begins with a start event, speaks only of
      what its journey declares, and every step is in its place. */
  lemma AcceptedExactly(steps: seq<Step>, env: Env)
    ensures ScenarioTheorems.Compiled(steps, env) <==>
            && Shaped(steps, env)
            && steps[0].eventType in env.journey.starts
            && forall s :: s in steps ==> Declared(s, env.journey)
  {
    hide StepOk, Declared, Placed;
    if ScenarioTheorems.Compiled(steps, env) {
      forall i | 0 <= i < |steps| { AcceptedIsPlaced(steps, env, i); }
      assert forall s :: s in steps <==> exists i :: 0 <= i < |steps| && steps[i] == s;
    }
    if Shaped(steps, env) && forall s :: s in steps ==> Declared(s, env.journey) {
      forall i | 0 <= i < |steps| { PlacedIsOk(steps, env, i); }
    }
  }

  lemma FirstIsEvent(steps: seq<Step>, env: Env)
    requires steps != [] && Placed(steps, env, 0)
    ensures steps[0].EventStep?
  {}

  /** The checker is exact: a scenario that speaks only of what its journey declares, and that
      completes under some policies, provider and limits, is accepted. Together with the soundness
      of acceptance: for its shape it rejects exactly what can never complete. */
  lemma CompletedScenariosAreAccepted(steps: seq<Step>, env: Env)
    requires KernelFrom(Start(env), steps, env).Ok?
    requires forall s :: s in steps ==> Declared(s, env.journey)
    requires steps != [] && steps[0].EventStep? ==> steps[0].eventType in env.journey.starts
    ensures ScenarioTheorems.Compiled(steps, env)
  {
    hide Declared, Placed, KernelTurn;
    assert steps != [];
    forall i | 0 <= i < |steps| ensures Placed(steps, env, i) {
      CompletedRunIsPlaced(Start(env), steps, env, i);
    }
    FirstIsEvent(steps, env);
    AcceptedExactly(steps, env);
  }
}
