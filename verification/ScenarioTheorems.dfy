/** What acceptance by the scenario checker guarantees for both interpreters. */
module ScenarioTheorems {
  import opened Contracts
  import opened Knowledge
  import opened Scenarios
  import opened KernelDriver
  import opened ScenarioAgent
  import Transitions
  import Communications

  /** An accepted scenario whose actions all have simulation adapters. */
  ghost predicate Compiled(steps: seq<Step>, env: Env) {
    && WellFormed(steps, env.journey)
    && (forall i :: 0 <= i < |steps| && steps[i].ActionStep? ==> steps[i].actionType in env.bindings)
  }

  // ------------------------------------------------------------ soundness

  /** Between turns, what is pending fits the step before the next one. */
  ghost predicate AtBoundary(k: Kernel, steps: seq<Step>) {
    && k.index <= |steps|
    && (k.pending.Idle? || 0 < k.index < |steps|)
    && match k.pending
       case Idle =>
         || k.index == 0
         || (k.index == |steps| && k.status.Completed?)
         || (k.index < |steps| && steps[k.index - 1].WaitForEvent? &&
             k.wakes == [EventWake(steps[k.index - 1].awaited)])
       case GotEvent(_, _) => false
       case GotResult(attempt, _) =>
         && steps[k.index - 1].ActionStep?
         && attempt == Key(0, k.index - 1, 1, Payload(steps[k.index - 1].actionType, attempt.payload.parameters))
       case GotTimer(_) => steps[k.index - 1].WaitForTimer?
  }

  lemma DecisionFollows(steps: seq<Step>, j: Journey, i: nat)
    requires WellFormed(steps, j) && 0 < i < |steps| && !steps[i - 1].WaitForEvent?
    ensures SkipFacts(steps, i) < |steps| && steps[SkipFacts(steps, i)].IsDecision()
  {
    var d := SkipFacts(steps, i);
    assert steps[|steps| - 1].CompleteStep?;
    assert !steps[d - 1].WaitForEvent?;
  }

  /** A turn has its wake source and a decision ahead of it. */
  ghost predicate CanDecide(fed: Kernel, steps: seq<Step>) {
    && !fed.pending.Idle? && 0 < fed.index < |steps| && !steps[fed.index - 1].WaitForEvent?
    && SkipFacts(steps, fed.index) < |steps| && steps[SkipFacts(steps, fed.index)].IsDecision()
  }

  lemma TakeEventIsSound(k: Kernel, steps: seq<Step>, env: Env)
    requires Compiled(steps, env) && AtBoundary(k, steps) && k.index < |steps|
    ensures TakeEvent(k, steps, env).Ok? || TakeEvent(k, steps, env) == Err(FactTrouble)
    ensures TakeEvent(k, steps, env).Ok? ==> CanDecide(TakeEvent(k, steps, env).value, steps)
  {
    assert steps[|steps| - 1].CompleteStep?;
    if k.pending.Idle? {
      assert k.index > 0 ==> steps[k.index].EventStep? && steps[k.index - 1] == WaitForEvent(steps[k.index].eventType);
    }
    var fed := TakeEvent(k, steps, env);
    if fed.Ok? { DecisionFollows(steps, env.journey, fed.value.index); }
  }

  // ---------------------------------------------------------- the causes

  /** The event that would open the turn reads a fact that is not there. */
  ghost predicate EventUnreadable(k: Kernel, steps: seq<Step>)
    requires k.index < |steps|
  {
    k.pending.Idle? && steps[k.index].EventStep? && BuildEvent(steps[k.index].event, k.facts).None?
  }

  /** An action step with readable parameters, which its parameters model encodes to `encoded`. */
  ghost predicate Encodes(step: Step, facts: Projection, j: Journey, encoded: Option<Json>) {
    && step.ActionStep? && Resolve(step.action.parameters, facts).Some?
    && j.encode(step.actionType, Resolve(step.action.parameters, facts).value) == encoded
  }

  /** The policies forbid the decision of the step. */
  ghost predicate Forbidden(k: Kernel, step: Step, env: Env, facts: Projection) {
    || Communications.LifetimeBlock(env.startedAt, env.comms, k.now).Some?
    || !env.fits(facts)
    || match step
       case ActionStep(actionType, _) =>
         actionType !in env.policy.allowedActions || env.policy.maxActions == 0 || ContactRefused(k, step, env)
       case WaitForEvent(t) => t !in env.policy.allowedWakeEvents
       case WaitForTimer(_, delay) => delay == 0 || delay > env.policy.maxTimerHorizon
       case _ => !Transitions.Satisfied(facts.authoritative, env.policy.completion) || !env.mayComplete
  }

  /** What an error says about the decision at step d on an opened turn. */
  ghost predicate CauseAt(e: RunError, k: Kernel, d: nat, steps: seq<Step>, env: Env)
    requires k.index <= d < |steps| && forall m :: k.index <= m < d ==> steps[m].FactStep?
  {
    var step, facts := steps[d], Project(k.facts, SourcesOf(k.pending));
    match e
    case Malformed(_) => false
    case FactTrouble =>
      || (step.ActionStep? && Resolve(step.action.parameters, facts).None?)
      || exists m :: k.index <= m < d && AssertFact(steps[m].key, steps[m].expected, facts).None?
    case InvalidParameters => HasParameterReferences(step) && Encodes(step, facts, env.journey, None)
    case ChangedIdentity =>
      exists encoded :: Encodes(step, facts, env.journey, Some(encoded)) &&
                        encoded != Resolve(step.action.parameters, facts).value
    case PolicyRefused => Forbidden(k, step, env, facts)
    case ProviderRefused =>
      && step.ActionStep? && Resolve(step.action.parameters, facts).Some?
      && var parameters := Resolve(step.action.parameters, facts).value;
         && Encodes(step, facts, env.journey, Some(parameters))
         && env.provider(k.calls, Payload(step.actionType, parameters), facts.authoritative).None?
  }

  ghost predicate HasParameterReferences(step: Step) {
    step.ActionStep? && HasReferences(step.action.parameters)
  }

  /** What an error says about a turn: which condition of which step failed. */
  ghost predicate Cause(e: RunError, k: Kernel, steps: seq<Step>, env: Env)
    requires k.index < |steps|
  {
    if EventUnreadable(k, steps) then e.FactTrouble?
    else
      var fed := TakeEvent(k, steps, env);
      fed.Ok? &&
      var d := SkipFacts(steps, fed.value.index);
      d < |steps| && CauseAt(e, fed.value, d, steps, env)
  }

  lemma {:induction false} AssertionsHold(steps: seq<Step>, i: nat, d: nat, p: Projection)
    requires i <= d <= |steps| && forall m :: i <= m < d ==> steps[m].FactStep?
    ensures AssertAll(steps, i, d, p).Some? <==>
            forall m :: i <= m < d ==> AssertFact(steps[m].key, steps[m].expected, p).Some?
    decreases d - i
  {
    if i < d { AssertionsHold(steps, i, d - 1, p); }
  }

  /** The decision of an accepted step is valid as far as the policies name its type or wake. */
  lemma ScriptIsValid(k: Kernel, step: Step, d: nat, env: Env, facts: Projection, payload: Payload)
    requires step.IsDecision() && (step.ActionStep? ==> payload.actionType == step.actionType)
    ensures Transitions.Valid(DecisionOf(step, d, k.pending, payload, k.now), env.policy, TurnOf(k.pending, k.now), {},
                              Known(facts)) <==>
            match step
            case ActionStep(actionType, _) => actionType in env.policy.allowedActions && env.policy.maxActions > 0
            case WaitForEvent(t) => t in env.policy.allowedWakeEvents
            case WaitForTimer(_, delay) => 0 < delay <= env.policy.maxTimerHorizon
            case _ => Transitions.Satisfied(facts.authoritative, env.policy.completion)
  {
    hide Transitions.Satisfied;
    var decision := DecisionOf(step, d, k.pending, payload, k.now);
    SourcesAreExact(k, step, d, payload);
    NoRequirements(facts.authoritative, env.policy.completion);
    match step {
      case ActionStep(actionType, _) => assert |decision.actions| == 1 && decision.actions[0].actionType == actionType;
      case WaitForEvent(t) => assert |decision.wakes| == 1 && decision.wakes[0] == EventWake(t);
      case WaitForTimer(_, delay) => assert |decision.wakes| == 1 && decision.wakes[0] == TimerWake(k.now + delay);
      case _ =>
    }
  }

  lemma NoRequirements(facts: map<string, Json>, requirements: map<string, Json>)
    ensures requirements == map[] ==> Transitions.Satisfied(facts, requirements)
  {}

  lemma SourcesAreExact(k: Kernel, step: Step, d: nat, payload: Payload)
    ensures var decision, turn := DecisionOf(step, d, k.pending, payload, k.now), TurnOf(k.pending, k.now);
            && Transitions.IsBasedOn(decision.eventIds, turn.events)
            && Transitions.IsBasedOn(decision.reviewIds, turn.reviews)
            && Transitions.IsBasedOn(decision.attemptIds, turn.attempts)
            && Transitions.IsBasedOn(decision.timerIds, turn.timers)
  {
    match k.pending {
      case GotEvent(id, _) => OneSource(id);
      case GotResult(attempt, _) => OneSource(attempt);
      case GotTimer(timer) => OneSource(timer);
      case Idle =>
    }
  }

  lemma OneSource<T>(x: T)
    ensures (set i | 0 <= i < |[x]| :: [x][i]) == {x}
  {
    assert [x][0] == x;
  }

  lemma ScriptedStatus(k: Kernel, step: Step, d: nat, env: Env, facts: Projection, payload: Payload)
    requires step.IsDecision() && StepOk(step, env.journey)
    ensures Transitions.NextStatus(DecisionOf(step, d, k.pending, payload, k.now), OpenAfter(step, d, env), env.mayComplete,
                                   facts.authoritative, env.policy.completion).Ok? <==>
            (step.CompleteStep? ==> Transitions.Satisfied(facts.authoritative, env.policy.completion) && env.mayComplete)
  {
    hide Transitions.Satisfied;
    var open := OpenAfter(step, d, env);
    if !step.ActionStep? { assert forall i :: i !in open; } else { assert d in open; }
  }

  /** Judging an accepted step fails exactly for one of the causes. */
  lemma JudgeFailsExactly(k: Kernel, d: nat, steps: seq<Step>, env: Env)
    requires k.index <= d < |steps| && forall m :: k.index <= m < d ==> steps[m].FactStep?
    requires steps[d].IsDecision() && StepOk(steps[d], env.journey)
    requires Communications.LifetimeBlock(env.startedAt, env.comms, k.now).None?
    ensures var step, facts := steps[d], Project(k.facts, SourcesOf(k.pending));
            match Judge(k, step, d, env, facts)
            case Err(e) => CauseAt(e, k, d, steps, env)
            case Ok(_) =>
              && PayloadFor(step, facts, env.journey).Kept? && !Forbidden(k, step, env, facts)
  {
    hide Transitions.Valid, Transitions.NextStatus, Communications.Allowed, Transitions.Satisfied,
         Communications.LifetimeBlock, Project;
    var step, facts := steps[d], Project(k.facts, SourcesOf(k.pending));
    if step.ActionStep? && !HasReferences(step.action.parameters) {
      LiteralsResolveToThemselves(step.action.parameters, facts);
    }
    var script := PayloadFor(step, facts, env.journey);
    if script.Kept? || script.IdentityChanged? {
      ScriptIsValid(k, step, d, env, facts, script.payload);
      ScriptedStatus(k, step, d, env, facts, script.payload);
      assert step.ActionStep? ==> Encodes(step, facts, env.journey, Some(script.payload.parameters));
    }
  }

  lemma JudgedStatus(k: Kernel, step: Step, d: nat, env: Env, facts: Projection)
    requires Judge(k, step, d, env, facts).Ok?
    ensures step.CompleteStep? ==> Judge(k, step, d, env, facts).value.Completed?
    ensures step.WaitForEvent? ==>
              WakesAfter(step, d, k.now, Judge(k, step, d, env, facts).value, env) == [EventWake(step.awaited)]
  {
    var open := OpenAfter(step, d, env);
    if !step.ActionStep? { assert forall i :: i !in open; }
  }

  /** A kept script rules the parameter causes out. */
  lemma KeptScript(step: Step, facts: Projection, j: Journey)
    requires PayloadFor(step, facts, j).Kept? && step.ActionStep?
    ensures Resolve(step.action.parameters, facts).Some?
    ensures Encodes(step, facts, j, Some(Resolve(step.action.parameters, facts).value))
    ensures PayloadFor(step, facts, j).payload ==
            Payload(step.actionType, Resolve(step.action.parameters, facts).value)
  {}

  /** Carrying out an accepted, bound step fails exactly when the provider refuses. */
  lemma ActFailsExactly(k: Kernel, step: Step, d: nat, script: Scripted, env: Env)
    requires script.Kept? && StepOk(step, env.journey) && (step.ActionStep? ==> step.actionType in env.bindings)
    ensures match Act(k, step, d, script, env)
            case Err(e) => e.ProviderRefused? && step.ActionStep? &&
                           env.provider(k.calls, script.payload, k.facts.authoritative).None?
            case Ok(_) => step.ActionStep? ==> env.provider(k.calls, script.payload, k.facts.authoritative).Some?
  {}

  lemma DecideFailsExactly(k: Kernel, d: nat, steps: seq<Step>, env: Env)
    requires Compiled(steps, env) && 0 < k.index <= d < |steps| && steps[d].IsDecision()
    requires forall m :: k.index <= m < d ==> steps[m].FactStep?
    requires Communications.LifetimeBlock(env.startedAt, env.comms, k.now).None?
    ensures match Decide(k, d, steps, env)
            case Err(e) => CauseAt(e, k, d, steps, env)
            case Ok(_) => forall e :: !CauseAt(e, k, d, steps, env)
  {
    hide Judge, Act, Forbidden, PayloadFor, AssertAll, AssertFact, Project, Communications.LifetimeBlock, Encodes, WellFormed;
    var step, facts := steps[d], Project(k.facts, SourcesOf(k.pending));
    assert StepOk(step, env.journey) by { StepsAreOk(steps, env, d); }
    JudgeFailsExactly(k, d, steps, env);
    AssertionsHold(steps, k.index, d, facts);
    if Judge(k, step, d, env, facts).Ok? {
      var script := PayloadFor(step, facts, env.journey);
      if step.ActionStep? { KeptScript(step, facts, env.journey); }
      var mid := DecidedAt(k, d, steps, env, facts);
      ActFailsExactly(mid, step, d, script, env);
      OnlyOneEncoding(step, facts, env.journey);
    }
  }

  lemma StepsAreOk(steps: seq<Step>, env: Env, d: nat)
    requires Compiled(steps, env) && d < |steps|
    ensures StepOk(steps[d], env.journey)
  {}

  lemma OnlyOneEncoding(step: Step, facts: Projection, j: Journey)
    ensures forall a, b | Encodes(step, facts, j, a) && Encodes(step, facts, j, b) :: a == b && step.ActionStep?
  {}

  /** The kernel between the judgement and the execution of a decision. */
  ghost function DecidedAt(k: Kernel, d: nat, steps: seq<Step>, env: Env, facts: Projection): Kernel
    requires k.index <= d < |steps| && steps[d].IsDecision()
    requires forall m :: k.index <= m < d ==> steps[m].FactStep?
    requires Judge(k, steps[d], d, env, facts).Ok?
  {
    var step, judged := steps[d], Judge(k, steps[d], d, env, facts);
    var script, asserted := PayloadFor(step, facts, env.journey), AssertAll(steps, k.index, d, facts);
    k.(index := d + 1, facts := facts, status := judged.value,
       wakes := WakesAfter(step, d, k.now, judged.value, env),
       contact := ContactAfter(k, step, env), pending := Idle,
       trace := if script.Kept? && asserted.Some?
                then k.trace + [Decided(d, DecisionOf(step, d, k.pending, script.payload, k.now))] + asserted.value
                else k.trace)
  }

  lemma DecideStaysAtBoundary(k: Kernel, d: nat, steps: seq<Step>, env: Env)
    requires Compiled(steps, env) && 0 < k.index <= d < |steps| && steps[d].IsDecision()
    requires forall m :: k.index <= m < d ==> steps[m].FactStep?
    requires Decide(k, d, steps, env).Ok?
    ensures AtBoundary(Decide(k, d, steps, env).value, steps)
  {
    var step := steps[d];
    var facts := Project(k.facts, SourcesOf(k.pending));
    assert StepOk(step, env.journey);
    assert steps[d].CompleteStep? <==> d == |steps| - 1;
    JudgedStatus(k, step, d, env, facts);
  }

  /** A turn that can be decided is the decision, unless the process has expired. */
  lemma TurnIs(k: Kernel, steps: seq<Step>, env: Env)
    requires k.index < |steps|
    ensures var fed, turn := TakeEvent(k, steps, env), KernelTurn(k, steps, env);
            if fed.Err? then turn == Err(fed.error)
            else CanDecide(fed.value, steps) ==>
                   if Communications.LifetimeBlock(env.startedAt, env.comms, k.now).Some? then turn == Err(PolicyRefused)
                   else turn == Decide(fed.value, SkipFacts(steps, fed.value.index), steps, env)
  {
    hide TakeEvent, Decide, Communications.LifetimeBlock;
  }

  lemma TakeEventFailsExactly(k: Kernel, steps: seq<Step>, env: Env)
    requires Compiled(steps, env) && AtBoundary(k, steps) && k.index < |steps|
    ensures TakeEvent(k, steps, env).Err? <==> EventUnreadable(k, steps)
  {
    assert steps[|steps| - 1].CompleteStep?;
    if k.pending.Idle? {
      assert k.index > 0 ==> steps[k.index].EventStep? && steps[k.index - 1] == WaitForEvent(steps[k.index].eventType);
    }
  }

  /** Between turns of an accepted scenario, the next turn fails exactly for one of the causes,
      and otherwise ends between turns again. */
  lemma TurnIsSound(k: Kernel, steps: seq<Step>, env: Env)
    requires Compiled(steps, env) && AtBoundary(k, steps) && k.index < |steps|
    ensures match KernelTurn(k, steps, env)
            case Err(e) => Cause(e, k, steps, env)
            case Ok(after) => AtBoundary(after, steps) && forall e :: !Cause(e, k, steps, env)
  {
    hide Decide, TakeEvent, KernelTurn, AtBoundary, Compiled, CauseAt, EventUnreadable, Communications.LifetimeBlock;
    TakeEventIsSound(k, steps, env);
    TakeEventFailsExactly(k, steps, env);
    TurnIs(k, steps, env);
    var fed := TakeEvent(k, steps, env);
    if fed.Ok? {
      var d := SkipFacts(steps, fed.value.index);
      if Communications.LifetimeBlock(env.startedAt, env.comms, k.now).Some? {
        ExpiryIsACause(fed.value, d, steps, env);
      } else {
        DecideFailsExactly(fed.value, d, steps, env);
        if Decide(fed.value, d, steps, env).Ok? { DecideStaysAtBoundary(fed.value, d, steps, env); }
      }
    }
  }

  lemma ExpiryIsACause(k: Kernel, d: nat, steps: seq<Step>, env: Env)
    requires k.index <= d < |steps| && forall m :: k.index <= m < d ==> steps[m].FactStep?
    requires Communications.LifetimeBlock(env.startedAt, env.comms, k.now).Some?
    ensures CauseAt(PolicyRefused, k, d, steps, env)
  {
    hide Communications.LifetimeBlock;
  }

  /** The run from k comes to a turn at `at`. */
  ghost predicate Reaches(k: Kernel, at: Kernel, steps: seq<Step>, env: Env)
    requires k.index <= |steps|
    decreases |steps| - k.index
  {
    at == k ||
    (k.index < |steps| && KernelTurn(k, steps, env).Ok? && Reaches(KernelTurn(k, steps, env).value, at, steps, env))
  }

  /** Turn `at` of the run fails because of e. */
  ghost predicate FailsAt(k: Kernel, at: Kernel, e: RunError, steps: seq<Step>, env: Env)
    requires k.index <= |steps|
  {
    Reaches(k, at, steps, env) && at.index < |steps| && Cause(e, at, steps, env)
  }

  /** Some turn that the run from k comes to fails because of e. */
  ghost predicate FailsBecause(k: Kernel, e: RunError, steps: seq<Step>, env: Env)
    requires k.index <= |steps|
  {
    exists at :: FailsAt(k, at, e, steps, env)
  }

  lemma FailureIsHereOrLater(k: Kernel, at: Kernel, e: RunError, steps: seq<Step>, env: Env)
    requires k.index < |steps| && KernelTurn(k, steps, env).Ok?
    ensures FailsAt(k, at, e, steps, env) <==>
            (at == k && Cause(e, k, steps, env)) || FailsAt(KernelTurn(k, steps, env).value, at, e, steps, env)
  {
    hide KernelTurn, Cause;
  }

  lemma SomeStep(steps: seq<Step>, env: Env)
    requires Compiled(steps, env)
    ensures steps != []
  {}

  lemma {:induction false} RunIsSound(k: Kernel, steps: seq<Step>, env: Env)
    requires Compiled(steps, env) && AtBoundary(k, steps)
    ensures match KernelFrom(k, steps, env)
            case Err(e) => FailsBecause(k, e, steps, env)
            case Ok(last) =>
              last.status.Completed? && last.index == |steps| && forall e :: !FailsBecause(k, e, steps, env)
    decreases |steps| - k.index
  {
    hide KernelTurn, Cause, Compiled, Reaches;
    SomeStep(steps, env);
    if k.index == |steps| {
      NothingFailsAtTheEnd(k, steps, env);
    } else {
      TurnIsSound(k, steps, env);
      var turn := KernelTurn(k, steps, env);
      if turn.Ok? {
        RunIsSound(turn.value, steps, env);
        forall e ensures FailsBecause(k, e, steps, env) <==> FailsBecause(turn.value, e, steps, env) {
          LaterFailures(k, e, steps, env);
        }
      } else {
        FailsHere(k, turn.error, steps, env);
      }
    }
  }

  lemma NothingFailsAtTheEnd(k: Kernel, steps: seq<Step>, env: Env)
    requires k.index == |steps|
    ensures forall e :: !FailsBecause(k, e, steps, env)
  {
    hide KernelTurn, Cause;
  }

  lemma FailsHere(k: Kernel, e: RunError, steps: seq<Step>, env: Env)
    requires k.index < |steps| && Cause(e, k, steps, env)
    ensures FailsBecause(k, e, steps, env)
  {
    hide KernelTurn, Cause;
    assert FailsAt(k, k, e, steps, env);
  }

  lemma LaterFailures(k: Kernel, e: RunError, steps: seq<Step>, env: Env)
    requires k.index < |steps| && KernelTurn(k, steps, env).Ok? && !Cause(e, k, steps, env)
    ensures FailsBecause(k, e, steps, env) <==> FailsBecause(KernelTurn(k, steps, env).value, e, steps, env)
  {
    hide KernelTurn, Cause, FailsAt;
    var next := KernelTurn(k, steps, env).value;
    forall at ensures FailsAt(k, at, e, steps, env) <==> FailsAt(next, at, e, steps, env) {
      FailureIsHereOrLater(k, at, e, steps, env);
    }
  }

  /** Checker soundness: a compiled scenario never fails for its own structure. Its run completes
      exactly when no turn it comes to has a cause to fail: an event, parameters or assertions
      that the facts do not bear out, parameters that their model rejects or re-encodes, a
      decision that the policies forbid, or a provider that refuses. A failed run names the turn
      and the cause. */
  lemma AcceptedScenariosRun(steps: seq<Step>, env: Env)
    requires Compiled(steps, env)
    ensures match KernelFrom(Start(env), steps, env)
            case Err(e) => !e.Malformed? && FailsBecause(Start(env), e, steps, env)
            case Ok(last) =>
              last.status.Completed? && last.index == |steps| && forall e :: !FailsBecause(Start(env), e, steps, env)
  {
    RunIsSound(Start(env), steps, env);
    var final := KernelFrom(Start(env), steps, env);
    if final.Err? {
      var at :| FailsAt(Start(env), at, final.error, steps, env);
      CauseIsNotStructural(final.error, at, steps, env);
    }
  }

  lemma CauseIsNotStructural(e: RunError, k: Kernel, steps: seq<Step>, env: Env)
    requires k.index < |steps| && Cause(e, k, steps, env)
    ensures !e.Malformed?
  {}

  // --------------------------------------------------- the identity finding

  lemma DecidedActionIsNormal(k: Kernel, d: nat, steps: seq<Step>, env: Env)
    requires k.index <= d < |steps| && steps[d].IsDecision()
    requires forall m :: k.index <= m < d ==> steps[m].FactStep?
    requires Decide(k, d, steps, env).Ok?
    requires steps[d].ActionStep? && !HasReferences(steps[d].action.parameters)
    ensures NormalForm(steps[d].actionType, steps[d].action, env.journey)
  {
    var facts := Project(k.facts, SourcesOf(k.pending));
    LiteralsResolveToThemselves(steps[d].action.parameters, facts);
    assert Judge(k, steps[d], d, env, facts).Ok?;
  }

  lemma {:induction false} CompletedRunKeptActions(k: Kernel, steps: seq<Step>, env: Env, i: nat)
    requires Compiled(steps, env) && AtBoundary(k, steps) && k.index <= i < |steps|
    requires KernelFrom(k, steps, env).Ok?
    requires steps[i].ActionStep? && !HasReferences(steps[i].action.parameters)
    ensures NormalForm(steps[i].actionType, steps[i].action, env.journey)
    decreases |steps| - k.index
  {
    hide Decide, KernelTurn, AtBoundary, NormalForm, HasReferences;
    TakeEventIsSound(k, steps, env);
    TurnIsSound(k, steps, env);
    TurnIs(k, steps, env);
    var turn := KernelTurn(k, steps, env);
    assert turn.Ok?;
    var fed := TakeEvent(k, steps, env).value;
    var d := SkipFacts(steps, fed.index);
    assert fed.index == k.index || (fed.index == k.index + 1 && steps[k.index].EventStep?);
    if i == d {
      DecidedActionIsNormal(fed, d, steps, env);
    } else {
      assert turn.value.index == d + 1 <= i;
      CompletedRunKeptActions(turn.value, steps, env, i);
    }
  }

  /** Acceptance does not look at re-encoding: a scenario with a literal action outside the
      normal form of its parameters model is accepted and never completes, whatever the
      facts, policies and provider do. */
  lemma ReencodedActionNeverCompletes(steps: seq<Step>, env: Env, i: nat)
    requires Compiled(steps, env) && i < |steps|
    requires steps[i].ActionStep? && !HasReferences(steps[i].action.parameters)
    requires !NormalForm(steps[i].actionType, steps[i].action, env.journey)
    ensures KernelFrom(Start(env), steps, env).Err?
  {
    if KernelFrom(Start(env), steps, env).Ok? {
      CompletedRunKeptActions(Start(env), steps, env, i);
    }
  }

  // -------------------------------------------------------- contact limits

  /** The contact evidence of a run is that of a history the policy admitted. */
  ghost predicate Grounded(k: Kernel, env: Env) {
    exists h :: GroundedBy(k, env, h)
  }

  ghost predicate GroundedBy(k: Kernel, env: Env, h: seq<Communications.Contact>) {
    && Communications.Admitted(env.comms, env.startedAt, h)
    && Communications.FactsOf(env.startedAt, h) == k.contact
    && (h != [] ==> h[|h| - 1].at <= k.now)
  }

  lemma GroundedExtends(k: Kernel, env: Env, c: Communications.Contact, after: Kernel)
    requires Grounded(k, env) && c.at == k.now == after.now
    requires c.Send? ==> Communications.Allowed(env.comms, k.contact, k.now)
    requires after.contact == Communications.Noted(k.contact, c)
    ensures Grounded(after, env)
  {
    hide Communications.Allowed, Communications.FactsOf, Communications.Admitted, Communications.Noted;
    var h :| GroundedBy(k, env, h);
    Communications.AdmittedExtends(env.comms, env.startedAt, h, c);
    Communications.FactsExtend(env.startedAt, h, c);
    assert GroundedBy(after, env, h + [c]);
  }

  lemma TakeEventKeepsGrounded(k: Kernel, steps: seq<Step>, env: Env)
    requires Grounded(k, env) && k.index < |steps| && TakeEvent(k, steps, env).Ok?
    ensures Grounded(TakeEvent(k, steps, env).value, env)
    ensures TakeEvent(k, steps, env).value.now == k.now
  {
    var fed := TakeEvent(k, steps, env).value;
    if k.pending.Idle? {
      var t := steps[k.index].eventType;
      if t in env.comms.replyTypes { GroundedExtends(k, env, Communications.Reply(k.now), fed); }
      else if t in env.comms.automatedTypes { GroundedExtends(k, env, Communications.AutoReply(k.now), fed); }
      else if t in env.comms.optOutTypes { GroundedExtends(k, env, Communications.OptOut(k.now), fed); }
      else {
        var h :| GroundedBy(k, env, h);
        assert GroundedBy(fed, env, h);
      }
    }
  }

  lemma DecideKeepsGrounded(k: Kernel, d: nat, steps: seq<Step>, env: Env)
    requires k.index <= d < |steps| && steps[d].IsDecision()
    requires forall m :: k.index <= m < d ==> steps[m].FactStep?
    requires Grounded(k, env) && Decide(k, d, steps, env).Ok?
    ensures Grounded(Decide(k, d, steps, env).value, env)
  {
    var step := steps[d];
    assert Judge(k, step, d, env, Project(k.facts, SourcesOf(k.pending))).Ok?;
    var mid := k.(contact := ContactAfter(k, step, env));
    if mid.contact != k.contact { GroundedExtends(k, env, Communications.Send(k.now), mid); }
    var h :| GroundedBy(mid, env, h);
    assert GroundedBy(Decide(k, d, steps, env).value, env, h);
  }

  lemma {:induction false} RunKeepsGrounded(k: Kernel, steps: seq<Step>, env: Env)
    requires k.index <= |steps| && Grounded(k, env) && KernelFrom(k, steps, env).Ok?
    ensures Grounded(KernelFrom(k, steps, env).value, env)
    decreases |steps| - k.index
  {
    if k.index < |steps| {
      TakeEventKeepsGrounded(k, steps, env);
      var fed := TakeEvent(k, steps, env).value;
      DecideKeepsGrounded(fed, SkipFacts(steps, fed.index), steps, env);
      RunKeepsGrounded(KernelTurn(k, steps, env).value, steps, env);
    }
  }

  ghost predicate WithinLimits(f: Communications.Facts, p: Communications.Policy) {
    && (forall from, t :: t - from == p.window ==> Communications.CountWithin(f.outbound, from, t) <= p.maxPerWindow)
    && |f.outbound| <= p.maxPerProcess
    && Communications.CountAfter(f.outbound, f.lastReply) <= p.maxFollowUps
  }

  lemma GroundedIsWithinLimits(k: Kernel, env: Env)
    requires Grounded(k, env)
    ensures WithinLimits(k.contact, env.comms)
  {
    var h :| GroundedBy(k, env, h);
    forall from, t | t - from == env.comms.window
      ensures Communications.CountWithin(k.contact.outbound, from, t) <= env.comms.maxPerWindow
    {
      Communications.WindowLimitHolds(env.comms, env.startedAt, h, t);
    }
    Communications.TotalsHold(env.comms, env.startedAt, h);
    Communications.FollowUpLimitHolds(env.comms, env.startedAt, h);
  }

  /** Every completed run, of any step list, respected the whole-run message limits. */
  lemma KernelRunsRespectLimits(steps: seq<Step>, env: Env)
    requires KernelFrom(Start(env), steps, env).Ok?
    ensures WithinLimits(KernelFrom(Start(env), steps, env).value.contact, env.comms)
  {
    assert GroundedBy(Start(env), env, []);
    RunKeepsGrounded(Start(env), steps, env);
    GroundedIsWithinLimits(KernelFrom(Start(env), steps, env).value, env);
  }

  // ------------------------------------------------------------ agreement

  /** The durable runtime around the agent, at the granularity of turns: it persists facts
      with the production fold, sends the awaited event, executes the proposed action, or
      lets the timer fire. Its own policy checks are those of the kernel and are not repeated. */
  datatype Durable = Durable(
    agent: Agent, now: int, facts: Projection, pending: Pending, calls: nat, turns: nat)

  function Boot(env: Env): Durable {
    Durable(Fresh, env.startedAt, Empty, Idle, 0, 0)
  }

  /** The wake source of the next turn: the event of the checkpoint, or the pending one. */
  function NextInput(s: Durable, steps: seq<Step>): Result<TurnInput, RunError>
    requires steps != []
  {
    var quiet := TurnInput(s.turns, s.now, s.facts, [], 0, [], []);
    match s.pending
    case GotResult(attempt, facts) =>
      Ok(quiet.(results := [ActionResult(attempt.request, attempt.payload.actionType, true, attempt, facts)]))
    case GotTimer(timer) => Ok(quiet.(timers := [timer]))
    case _ =>
      var e := if s.agent.checkpoint.EventCheckpoint? then s.agent.checkpoint.eventStep else 0;
      if e >= |steps| || !steps[e].EventStep? then Err(Malformed(WrongWake))
      else
        var facts := BuildEvent(steps[e].event, s.facts);
        if facts.None? then Err(FactTrouble)
        else Ok(quiet.(events := [InboundEvent(e, steps[e].eventType, facts.value)]))
  }

  /** What the runtime does with an accepted decision. */
  function Enact(s: Durable, decision: Decision, steps: seq<Step>, env: Env): Result<Durable, RunError> {
    match s.agent.expected
    case AResult(_) =>
      if decision.actions == [] then Err(Malformed(WrongWake))
      else
        var action := decision.actions[0];
        if action.actionType !in env.bindings then Err(Malformed(NoAdapter))
        else
          var result := env.provider(s.calls, PayloadOf(action), s.facts.authoritative);
          if result.None? then Err(ProviderRefused)
          else Ok(s.(pending := GotResult(Key(0, action.requestId, 1, PayloadOf(action)), result.value),
                     calls := s.calls + 1))
    case ATimer(_) =>
      if s.agent.checkpoint.TimerCheckpoint?
      then Ok(s.(now := s.now + s.agent.checkpoint.delay, pending := GotTimer("workflow timer")))
      else Err(Malformed(WrongWake))
    case _ => Ok(s.(pending := Idle))
  }

  function DurableTurn(s: Durable, steps: seq<Step>, env: Env): (r: Result<Durable, RunError>)
    requires steps != []
    ensures r.Ok? ==> s.agent.cursor < r.value.agent.cursor
  {
    var input := NextInput(s, steps);
    if input.Err? then Err(input.error)
    else
      var decided := NextDecision(s.agent.(checkpoint := NoCheckpoint), input.value, steps, env.journey);
      if decided.Err? then Err(decided.error)
      else
        Enact(s.(agent := decided.value.0, facts := Prospective(input.value), turns := s.turns + 1),
              decided.value.1, steps, env)
  }

  function DurableFrom(s: Durable, steps: seq<Step>, env: Env): Result<Outcome, RunError>
    requires steps != []
    decreases |steps| - s.agent.cursor
  {
    if s.agent.checkpoint.CompleteCheckpoint? && s.agent.cursor == |steps| then
      Ok(Outcome(s.facts, s.agent.trace))
    else if s.agent.checkpoint.CompleteCheckpoint? || s.agent.cursor >= |steps| then
      Err(Malformed(NotCompleted))
    else
      var turn := DurableTurn(s, steps, env);
      if turn.Err? then Err(turn.error) else DurableFrom(turn.value, steps, env)
  }

  /** Both interpreters stand at the same point of the script. */
  ghost predicate InStep(k: Kernel, s: Durable, steps: seq<Step>) {
    && k.index == s.agent.cursor && k.now == s.now && k.facts == s.facts && k.calls == s.calls
    && k.trace == s.agent.trace
    && (k.pending == s.pending || (k.pending.GotTimer? && s.pending.GotTimer?))
    && (s.agent.checkpoint.CompleteCheckpoint? <==> k.index == |steps|)
    && match k.pending
       case Idle =>
         || (k.index == |steps|)
         || (k.index == 0 && s.agent.expected.Nothing? && s.agent.checkpoint.NoCheckpoint?)
         || (0 < k.index && s.agent.expected == AnEvent(k.index) &&
             s.agent.checkpoint == EventCheckpoint(k.index - 1, k.index))
       case GotEvent(_, _) => false
       case GotResult(_, _) => 0 < k.index && s.agent.expected == AResult(k.index - 1)
       case GotTimer(_) => 0 < k.index && s.agent.expected == ATimer(k.index - 1)
  }

  /** The agent accepts the wake source that the kernel takes, and reads the same facts. */
  ghost predicate WakesAlike(fed: Kernel, a: Agent, input: TurnInput) {
    && a.cursor == fed.index && a.trace == fed.trace && a.checkpoint.NoCheckpoint?
    && input.now == fed.now
    && Prospective(input) == Project(fed.facts, SourcesOf(fed.pending))
  }

  lemma WakeAgrees(k: Kernel, s: Durable, steps: seq<Step>, env: Env)
    requires Compiled(steps, env) && AtBoundary(k, steps) && InStep(k, s, steps) && k.index < |steps|
    ensures TakeEvent(k, steps, env).Err? ==> NextInput(s, steps).Err?
    ensures TakeEvent(k, steps, env).Ok? ==>
              var input := NextInput(s, steps);
              var agent := s.agent.(checkpoint := NoCheckpoint);
              input.Ok? && ConsumeWake(agent, input.value, steps).Ok? &&
              WakesAlike(TakeEvent(k, steps, env).value, ConsumeWake(agent, input.value, steps).value, input.value)
  {
    TakeEventIsSound(k, steps, env);
    var fed := TakeEvent(k, steps, env);
    if fed.Ok? {
      var input := NextInput(s, steps).value;
      assert EventSources(input.events) + ResultSources(input.results) == SourcesOf(fed.value.pending);
    }
  }

  lemma EnactAgrees(k: Kernel, s: Durable, step: Step, d: nat, payload: Payload, decision: Decision,
                    steps: seq<Step>, env: Env)
    requires Compiled(steps, env) && d < |steps| && step == steps[d] && step.IsDecision()
    requires k.index == s.agent.cursor == d + 1 && k.now == s.now && k.facts == s.facts && k.calls == s.calls
    requires k.trace == s.agent.trace && k.pending.Idle?
    requires step.ActionStep? ==> payload.actionType == step.actionType
    requires step.ActionStep? ==>
               decision.actions == [Proposal(d, step.action.logicalKey, step.actionType, payload.parameters,
                                             step.action.rationale)]
    requires s.agent.checkpoint.NoCheckpoint?
    ensures var planned := Plan(s.agent, step, d, steps, env.journey);
            var acted := Act(k, step, d, Kept(payload), env);
            && planned.Ok?
            && var enacted := Enact(s.(agent := planned.value), decision, steps, env);
               && (acted.Ok? <==> enacted.Ok?)
               && (acted.Ok? ==> InStep(acted.value, enacted.value, steps))
  {
    assert StepOk(step, env.journey);
    assert step.CompleteStep? <==> d == |steps| - 1;
    if step.WaitForEvent? { assert steps[d + 1 - 1].WaitForEvent? && steps[d + 1].EventStep?; }
  }

  lemma AgentDecides(a0: Agent, d: nat, a: Agent, input: TurnInput, steps: seq<Step>, j: Journey)
    requires steps != [] && ConsumeWake(a0, input, steps) == Ok(a)
    requires a.cursor <= |steps| && d == SkipFacts(steps, a.cursor) < |steps| && steps[d].IsDecision()
    ensures var script := PayloadFor(steps[d], Prospective(input), j);
            var asserted := AssertAll(steps, a.cursor, d, Prospective(input));
            if script.Kept? && asserted.Some? then
              var decision := AgentDecision(input, steps[d], d, script.payload);
              var planned := Plan(Recorded(a, d, decision, asserted.value), steps[d], d, steps, j);
              planned.Ok? ==> NextDecision(a0, input, steps, j) == Ok((planned.value, decision))
            else NextDecision(a0, input, steps, j).Err?
  {
    hide ConsumeWake, Prospective, PayloadFor, AgentDecision, Recorded, AssertAll, Plan;
  }

  function Settled(k: Kernel, step: Step, d: nat, status: ProcessStatus, facts: Projection, payload: Payload,
                   asserted: seq<Seen>, env: Env): Kernel
  {
    k.(index := d + 1, facts := facts, status := status, wakes := WakesAfter(step, d, k.now, status, env),
       contact := ContactAfter(k, step, env), pending := Idle,
       trace := k.trace + [Decided(d, DecisionOf(step, d, k.pending, payload, k.now))] + asserted)
  }

  lemma KernelDecides(k: Kernel, d: nat, steps: seq<Step>, env: Env)
    requires k.index <= d < |steps| && steps[d].IsDecision()
    requires forall m :: k.index <= m < d ==> steps[m].FactStep?
    ensures var facts := Project(k.facts, SourcesOf(k.pending));
            var script := PayloadFor(steps[d], facts, env.journey);
            var asserted := AssertAll(steps, k.index, d, facts);
            var judged := Judge(k, steps[d], d, env, facts);
            if judged.Err? then Decide(k, d, steps, env) == Err(judged.error)
            else
              script.Kept? &&
              if asserted.None? then Decide(k, d, steps, env).Err?
              else Decide(k, d, steps, env) ==
                   Act(Settled(k, steps[d], d, judged.value, facts, script.payload, asserted.value, env),
                       steps[d], d, script, env)
    ensures !PayloadFor(steps[d], Project(k.facts, SourcesOf(k.pending)), env.journey).Kept? ==>
              Decide(k, d, steps, env).Err?
  {}

  lemma JudgeRefusesByPolicy(k: Kernel, step: Step, d: nat, env: Env, facts: Projection)
    requires PayloadFor(step, facts, env.journey).Kept? && Judge(k, step, d, env, facts).Err?
    ensures Judge(k, step, d, env, facts) == Err(PolicyRefused)
  {}

  lemma DurableTurnIs(s: Durable, input: TurnInput, planned: Agent, decision: Decision, steps: seq<Step>, env: Env)
    requires steps != [] && NextInput(s, steps) == Ok(input)
    requires NextDecision(s.agent.(checkpoint := NoCheckpoint), input, steps, env.journey) == Ok((planned, decision))
    ensures DurableTurn(s, steps, env) ==
            Enact(s.(agent := planned, facts := Prospective(input), turns := s.turns + 1), decision, steps, env)
  {
    hide Enact, NextDecision, NextInput, Prospective;
  }

  lemma DurableTurnFails(s: Durable, input: TurnInput, steps: seq<Step>, env: Env)
    requires steps != [] && NextInput(s, steps) == Ok(input)
    requires NextDecision(s.agent.(checkpoint := NoCheckpoint), input, steps, env.journey).Err?
    ensures DurableTurn(s, steps, env).Err?
  {
    hide NextDecision, NextInput, Prospective;
  }

  lemma AcceptedAgrees(k: Kernel, s: Durable, d: nat, a: Agent, input: TurnInput, payload: Payload,
                       asserted: seq<Seen>, status: ProcessStatus, steps: seq<Step>, env: Env)
    requires Compiled(steps, env) && d < |steps| && steps[d].IsDecision()
    requires k.now == s.now && k.calls == s.calls && WakesAlike(k, a, input)
    requires steps[d].ActionStep? ==> payload.actionType == steps[d].actionType
    ensures var decision := AgentDecision(input, steps[d], d, payload);
            var agent := Recorded(a, d, decision, asserted);
            var planned := Plan(agent, steps[d], d, steps, env.journey);
            var mid := Settled(k, steps[d], d, status, Prospective(input), payload, asserted, env);
            var acted := Act(mid, steps[d], d, Kept(payload), env);
            && planned.Ok?
            && var enacted := Enact(s.(agent := planned.value, facts := Prospective(input), turns := s.turns + 1),
                                    decision, steps, env);
               && (acted.Ok? <==> enacted.Ok?)
               && (acted.Ok? ==> InStep(acted.value, enacted.value, steps))
  {
    var decision := AgentDecision(input, steps[d], d, payload);
    assert Decided(d, decision) == Decided(d, DecisionOf(steps[d], d, k.pending, payload, k.now));
    EnactAgrees(
      Settled(k, steps[d], d, status, Prospective(input), payload, asserted, env),
      s.(agent := Recorded(a, d, decision, asserted), facts := Prospective(input), turns := s.turns + 1),
      steps[d], d, payload, decision, steps, env);
  }

  lemma DecideAgrees(k: Kernel, s: Durable, d: nat, a: Agent, input: TurnInput, steps: seq<Step>, env: Env)
    requires Compiled(steps, env) && 0 < k.index <= d < |steps| && steps[d].IsDecision()
    requires d == SkipFacts(steps, k.index)
    requires k.now == s.now && k.calls == s.calls
    requires ConsumeWake(s.agent.(checkpoint := NoCheckpoint), input, steps) == Ok(a) && WakesAlike(k, a, input)
    requires NextInput(s, steps) == Ok(input)
    ensures var decided, turn := Decide(k, d, steps, env), DurableTurn(s, steps, env);
            && (decided.Ok? ==> turn.Ok? && InStep(decided.value, turn.value, steps))
            && (decided.Err? && decided.error != PolicyRefused ==> turn.Err?)
  {
    var facts := Prospective(input);
    var script := PayloadFor(steps[d], facts, env.journey);
    var asserted := AssertAll(steps, k.index, d, facts);
    var judged := Judge(k, steps[d], d, env, facts);
    AgentDecides(s.agent.(checkpoint := NoCheckpoint), d, a, input, steps, env.journey);
    KernelDecides(k, d, steps, env);
    if !script.Kept? || asserted.None? {
      DurableTurnFails(s, input, steps, env);
    }
    if script.Kept? && judged.Err? {
      JudgeRefusesByPolicy(k, steps[d], d, env, facts);
    } else if script.Kept? && asserted.Some? {
      BothDecide(k, s, d, a, input, steps, env);
    }
  }

  lemma BothDecide(k: Kernel, s: Durable, d: nat, a: Agent, input: TurnInput, steps: seq<Step>, env: Env)
    requires Compiled(steps, env) && 0 < k.index <= d < |steps| && steps[d].IsDecision()
    requires d == SkipFacts(steps, k.index)
    requires k.now == s.now && k.calls == s.calls
    requires ConsumeWake(s.agent.(checkpoint := NoCheckpoint), input, steps) == Ok(a) && WakesAlike(k, a, input)
    requires NextInput(s, steps) == Ok(input)
    requires PayloadFor(steps[d], Prospective(input), env.journey).Kept?
    requires AssertAll(steps, k.index, d, Prospective(input)).Some?
    requires Judge(k, steps[d], d, env, Prospective(input)).Ok?
    ensures var decided, turn := Decide(k, d, steps, env), DurableTurn(s, steps, env);
            (decided.Ok? <==> turn.Ok?) && (decided.Ok? ==> InStep(decided.value, turn.value, steps))
  {
    hide Prospective, Judge, Act, Enact, Plan, NextDecision, ConsumeWake, NextInput, InStep,
         AgentDecision, Settled, Recorded, AssertAll, DurableTurn, Decide;
    var facts := Prospective(input);
    var script := PayloadFor(steps[d], facts, env.journey);
    var asserted := AssertAll(steps, k.index, d, facts);
    AgentDecides(s.agent.(checkpoint := NoCheckpoint), d, a, input, steps, env.journey);
    KernelDecides(k, d, steps, env);
    var judged := Judge(k, steps[d], d, env, facts);
    var decision := AgentDecision(input, steps[d], d, script.payload);
    AcceptedAgrees(k, s, d, a, input, script.payload, asserted.value, judged.value, steps, env);
    var planned := Plan(Recorded(a, d, decision, asserted.value), steps[d], d, steps, env.journey).value;
    DurableTurnIs(s, input, planned, decision, steps, env);
    var mid := Settled(k, steps[d], d, judged.value, facts, script.payload, asserted.value, env);
    assert Decide(k, d, steps, env) == Act(mid, steps[d], d, Kept(script.payload), env);
  }

  lemma TurnAgrees(k: Kernel, s: Durable, steps: seq<Step>, env: Env)
    requires Compiled(steps, env) && AtBoundary(k, steps) && InStep(k, s, steps) && k.index < |steps|
    ensures var kernel, durable := KernelTurn(k, steps, env), DurableTurn(s, steps, env);
            && (kernel.Ok? ==> durable.Ok? && InStep(kernel.value, durable.value, steps))
            && (kernel.Err? && kernel.error != PolicyRefused ==> durable.Err?)
  {
    TakeEventIsSound(k, steps, env);
    WakeAgrees(k, s, steps, env);
    TurnIs(k, steps, env);
    NoInputNoTurn(s, steps, env);
    var fed := TakeEvent(k, steps, env);
    if fed.Ok? { FedTurnAgrees(k, fed.value, s, steps, env); }
  }

  lemma NoInputNoTurn(s: Durable, steps: seq<Step>, env: Env)
    requires steps != []
    ensures NextInput(s, steps).Err? ==> DurableTurn(s, steps, env).Err?
  {
    hide NextInput, NextDecision, Enact;
  }

  lemma FedTurnAgrees(k: Kernel, fed: Kernel, s: Durable, steps: seq<Step>, env: Env)
    requires Compiled(steps, env) && InStep(k, s, steps) && k.index < |steps|
    requires TakeEvent(k, steps, env) == Ok(fed) && CanDecide(fed, steps)
    requires fed.now == k.now && fed.calls == k.calls
    requires var input := NextInput(s, steps);
             var agent := s.agent.(checkpoint := NoCheckpoint);
             input.Ok? && ConsumeWake(agent, input.value, steps).Ok? &&
             WakesAlike(fed, ConsumeWake(agent, input.value, steps).value, input.value)
    ensures var kernel, durable := KernelTurn(k, steps, env), DurableTurn(s, steps, env);
            && (kernel.Ok? ==> durable.Ok? && InStep(kernel.value, durable.value, steps))
            && (kernel.Err? && kernel.error != PolicyRefused ==> durable.Err?)
  {
    hide KernelTurn, DurableTurn, Decide, TakeEvent, NextInput, ConsumeWake;
    TurnIs(k, steps, env);
    var input := NextInput(s, steps).value;
    var a := ConsumeWake(s.agent.(checkpoint := NoCheckpoint), input, steps).value;
    DecideAgrees(fed, s, SkipFacts(steps, fed.index), a, input, steps, env);
  }

  lemma {:induction false} RunsAgree(k: Kernel, s: Durable, steps: seq<Step>, env: Env)
    requires Compiled(steps, env) && AtBoundary(k, steps) && InStep(k, s, steps)
    ensures var kernel, durable := KernelFrom(k, steps, env), DurableFrom(s, steps, env);
            && (kernel.Ok? ==> durable == Ok(Outcome(kernel.value.facts, kernel.value.trace)))
            && (kernel.Err? && kernel.error != PolicyRefused ==> durable.Err?)
    decreases |steps| - k.index
  {
    if k.index < |steps| {
      TurnIsSound(k, steps, env);
      TurnAgrees(k, s, steps, env);
      var turn := KernelTurn(k, steps, env);
      if turn.Ok? { RunsAgree(turn.value, DurableTurn(s, steps, env).value, steps, env); }
    }
  }

  /** On every compiled scenario both interpreters consume the same events, take the same
      decisions at the same steps in the same order and assert the same facts with the same
      values: a kernel run is the agent's run, and an agent run is the kernel's unless a
      policy that only the kernel consults here refused. */
  lemma InterpretersAgree(steps: seq<Step>, env: Env)
    requires Compiled(steps, env)
    ensures var kernel, durable := KernelFrom(Start(env), steps, env), DurableFrom(Boot(env), steps, env);
            && (kernel.Ok? ==> durable == Ok(Outcome(kernel.value.facts, kernel.value.trace)))
            && (durable.Ok? ==>
                  kernel == Err(PolicyRefused) ||
                  (kernel.Ok? && durable.value == Outcome(kernel.value.facts, kernel.value.trace)))
  {
    RunsAgree(Start(env), Boot(env), steps, env);
  }
}
