/** The infrastructure-free scenario interpreter. */
module KernelDriver {
  import opened Contracts
  import opened Knowledge
  import opened Scenarios
  import Transitions
  import Communications

  /** Everything a run depends on besides the steps: production policies, the message limits,
      size limits on facts, and the simulation provider, a function of the call count. */
  datatype Env = Env(
    journey: Journey,
    policy: Transitions.DecisionPolicy,
    comms: Communications.Policy,
    mayComplete: bool,
    bindings: set<string>,
    startedAt: int,
    fits: Projection -> bool,
    provider: (nat, Payload, map<string, Json>) -> Option<seq<Observation>>)

  datatype Pending =
    | Idle
    | GotEvent(id: Id, facts: seq<Observation>)
    | GotResult(attempt: Key, facts: seq<Observation>)
    | GotTimer(timer: string)

  function SourcesOf(p: Pending): seq<Source> {
    match p
    case GotEvent(id, facts) => [Source(FromEvent(id), facts)]
    case GotResult(attempt, facts) => [Source(FromAttempt(attempt), facts)]
    case _ => []
  }

  function TurnOf(p: Pending, now: int): Transitions.Turn {
    Transitions.Turn(
      Some(if p.GotEvent? then {p.id} else {}), None,
      Some(if p.GotResult? then {p.attempt} else {}),
      Some(if p.GotTimer? then {p.timer} else {}), now)
  }

  /** The driver checks completion against the facts after the turn. */
  function Known(facts: Projection): Transitions.Evidence {
    Transitions.Evidence(Some(facts.authoritative), true)
  }

  function DecisionOf(step: Step, index: nat, p: Pending, payload: Payload, now: int): Decision {
    ScriptedDecision(
      step, index, if p.GotEvent? then [p.id] else [], if p.GotResult? then [p.attempt] else [],
      if p.GotTimer? then [p.timer] else [], payload, now)
  }

  function InitialStatus(p: Permission): ActionStatus {
    match p case Allow => Allowed case Deny => Denied case RequireApproval => PendingApproval
  }

  function OpenAfter(step: Step, index: nat, env: Env): map<Id, ActionStatus> {
    if step.ActionStep? && !PermissionOf(step.actionType, env.journey.permissions).Deny?
    then map[index := InitialStatus(PermissionOf(step.actionType, env.journey.permissions))]
    else map[]
  }

  /** How an inbound event changes the contact evidence. */
  function NoteEvent(f: Communications.Facts, eventType: string, env: Env, now: int): Communications.Facts {
    if eventType in env.comms.replyTypes then f.(lastReply := Some(now), automatedAt := None)
    else if eventType in env.comms.automatedTypes then f.(automatedAt := Some(now))
    else if eventType in env.comms.optOutTypes then f.(optedOutAt := Some(now))
    else f
  }

  datatype Kernel = Kernel(
    index: nat,
    now: int,
    facts: Projection,
    wakes: seq<Wake>,
    status: ProcessStatus,
    pending: Pending,
    contact: Communications.Facts,
    calls: nat,
    trace: seq<Seen>)

  datatype Outcome = Outcome(facts: Projection, trace: seq<Seen>)

  function Start(env: Env): Kernel {
    Kernel(0, env.startedAt, Empty, [], Active, Idle,
           Communications.FactsOf(env.startedAt, []), 0, [])
  }

  // --------------------------------------------------- reference semantics

  /** A turn without a pending wake source begins with the next business event. */
  function TakeEvent(k: Kernel, steps: seq<Step>, env: Env): (r: Result<Kernel, RunError>)
    requires k.index < |steps|
    ensures r.Ok? ==> !r.value.pending.Idle? && k.index <= r.value.index <= |steps| && r.value.now == k.now
  {
    if !k.pending.Idle? then Ok(k)
    else if !steps[k.index].EventStep? then Err(Malformed(NoWakeSource))
    else
      var facts := BuildEvent(steps[k.index].event, k.facts);
      if facts.None? then Err(FactTrouble)
      else if k.index > 0 && EventWake(steps[k.index].eventType) !in k.wakes then Err(Malformed(NotWaiting))
      else Ok(k.(index := k.index + 1, pending := GotEvent(k.index, facts.value),
                 contact := NoteEvent(k.contact, steps[k.index].eventType, env, k.now),
                 trace := k.trace + [SawEvent(k.index)]))
  }

  predicate ContactRefused(k: Kernel, step: Step, env: Env) {
    step.ActionStep? && step.actionType in env.comms.outboundTypes &&
    !Communications.Allowed(env.comms, k.contact, k.now)
  }

  function ContactAfter(k: Kernel, step: Step, env: Env): Communications.Facts {
    if step.ActionStep? && step.actionType in env.comms.outboundTypes &&
       !PermissionOf(step.actionType, env.journey.permissions).Deny?
    then k.contact.(outbound := k.contact.outbound + [k.now]) else k.contact
  }

  /** The production checks on the decision of a step: the next status, or why not. */
  function Judge(k: Kernel, step: Step, d: nat, env: Env, facts: Projection): Result<ProcessStatus, RunError> {
    var script := PayloadFor(step, facts, env.journey);
    if script.FactUnavailable? then Err(FactTrouble)
    else if script.ParametersInvalid? then Err(InvalidParameters)
    else
      var decision := DecisionOf(step, d, k.pending, script.payload, k.now);
      if !Transitions.Valid(decision, env.policy, TurnOf(k.pending, k.now), {}, Known(facts)) then
        Err(PolicyRefused)
      else if script.IdentityChanged? then Err(ChangedIdentity)
      else if !env.fits(facts) || ContactRefused(k, step, env) then Err(PolicyRefused)
      else
        var status := Transitions.NextStatus(
          decision, OpenAfter(step, d, env), env.mayComplete, facts.authoritative, env.policy.completion);
        if status.Err? then Err(PolicyRefused) else Ok(status.value)
  }

  function WakesAfter(step: Step, d: nat, now: int, status: ProcessStatus, env: Env): seq<Wake> {
    Transitions.EffectiveWakes(
      DecisionOf(step, d, Idle, Payload("", Null), now), status, OpenAfter(step, d, env))
  }

  /** The decision at step d on a nonempty wake source. */
  function Decide(k: Kernel, d: nat, steps: seq<Step>, env: Env): (r: Result<Kernel, RunError>)
    requires k.index <= d < |steps| && steps[d].IsDecision()
    requires forall m :: k.index <= m < d ==> steps[m].FactStep?
    ensures r.Ok? ==> r.value.index == d + 1
  {
    var step := steps[d];
    var facts := Project(k.facts, SourcesOf(k.pending));
    var judged := Judge(k, step, d, env, facts);
    if judged.Err? then Err(judged.error)
    else
      var asserted := AssertAll(steps, k.index, d, facts);
      if asserted.None? then Err(FactTrouble)
      else
        var script := PayloadFor(step, facts, env.journey);
        Act(k.(index := d + 1, facts := facts, status := judged.value,
               wakes := WakesAfter(step, d, k.now, judged.value, env),
               contact := ContactAfter(k, step, env), pending := Idle,
               trace := k.trace + [Decided(d, DecisionOf(step, d, k.pending, script.payload, k.now))]
                        + asserted.value),
            step, d, script, env)
  }

  /** What a decision step makes happen after it was applied. */
  function Act(k: Kernel, step: Step, d: nat, script: Scripted, env: Env): (r: Result<Kernel, RunError>)
    requires script.Kept?
    ensures r.Ok? ==> r.value.index == k.index
  {
    match step
    case ActionStep(actionType, action) =>
      var permission := PermissionOf(actionType, env.journey.permissions);
      if permission.RequireApproval? && !action.approve then Err(Malformed(ApprovalMissing))
      else if !permission.RequireApproval? && action.approve then Err(Malformed(ApprovalUnneeded))
      else if permission.Deny? then Err(Malformed(DeniedByPolicy))
      else if actionType !in env.bindings then Err(Malformed(NoAdapter))
      else
        var result := env.provider(k.calls, script.payload, k.facts.authoritative);
        if result.None? then Err(ProviderRefused)
        else Ok(k.(pending := GotResult(Key(0, d, 1, script.payload), result.value), calls := k.calls + 1))
    case WaitForTimer(timer, delay) => Ok(k.(now := k.now + delay, pending := GotTimer(timer)))
    case _ => Ok(k)
  }

  function KernelTurn(k: Kernel, steps: seq<Step>, env: Env): (r: Result<Kernel, RunError>)
    requires k.index < |steps|
    ensures r.Ok? ==> k.index < r.value.index <= |steps|
  {
    var fed := TakeEvent(k, steps, env);
    if fed.Err? then fed
    else
      var d := SkipFacts(steps, fed.value.index);
      if d == |steps| then Err(Malformed(NoDecision))
      else if !steps[d].IsDecision() then Err(Malformed(UnexpectedStep))
      else if Communications.LifetimeBlock(env.startedAt, env.comms, k.now).Some? then Err(PolicyRefused)
      else Decide(fed.value, d, steps, env)
  }

  function KernelFrom(k: Kernel, steps: seq<Step>, env: Env): Result<Kernel, RunError>
    requires k.index <= |steps|
    decreases |steps| - k.index
  {
    if k.index == |steps| then
      if k.status.Completed? then Ok(k) else Err(Malformed(NotCompleted))
    else
      var turn := KernelTurn(k, steps, env);
      if turn.Err? then turn else KernelFrom(turn.value, steps, env)
  }

  // ----------------------------------------------------------- the driver

  /** testkit/scenarios.py KernelScenarioDriver.run: the variables of its one loop. */
  class KernelRun {
    const steps: seq<Step>
    const env: Env
    var index: nat
    var now: int
    var snapshot: Projection
    var wakes: seq<Wake>
    var status: ProcessStatus
    var pending: Pending
    var calls: nat
    var trace: seq<Seen>
    var outboundTimes: seq<int>
    var lastHumanReplyAt: Option<int>
    var latestAutomatedResponseAt: Option<int>
    var optedOutAt: Option<int>

    ghost function View(): Kernel
      reads this
    {
      Kernel(index, now, snapshot, wakes, status, pending, ContactFacts(), calls, trace)
    }

    function ContactFacts(): Communications.Facts
      reads this
    {
      Communications.Facts(env.startedAt, outboundTimes, None, lastHumanReplyAt,
                           latestAutomatedResponseAt, optedOutAt, true)
    }

    constructor (steps: seq<Step>, env: Env)
      ensures View() == Start(env) && this.steps == steps && this.env == env
    {
      this.steps, this.env := steps, env;
      index, now, calls := 0, env.startedAt, 0;
      snapshot, wakes, status := Empty, [], Active;
      pending, trace, outboundTimes := Idle, [], [];
      lastHumanReplyAt, latestAutomatedResponseAt, optedOutAt := None, None, None;
    }

    /** Open a turn: with nothing pending, the next step must be an awaited event. */
    method TakeWake() returns (error: Option<RunError>)
      requires index < |steps|
      modifies this
      ensures TakeEvent(old(View()), steps, env) ==
              if error.None? then Ok(View()) else Err(error.value)
    {
      if !pending.Idle? { return None; }
      if !steps[index].EventStep? { return Some(Malformed(NoWakeSource)); }
      var eventType := steps[index].eventType;
      var facts := BuildEvent(steps[index].event, snapshot);
      if facts.None? { return Some(FactTrouble); }
      if index > 0 && EventWake(eventType) !in wakes { return Some(Malformed(NotWaiting)); }
      pending := GotEvent(index, facts.value);
      if eventType in env.comms.replyTypes {
        lastHumanReplyAt, latestAutomatedResponseAt := Some(now), None;
      } else if eventType in env.comms.automatedTypes {
        latestAutomatedResponseAt := Some(now);
      } else if eventType in env.comms.optOutTypes {
        optedOutAt := Some(now);
      }
      trace := trace + [SawEvent(index)];
      index := index + 1;
      error := None;
    }

    /** The checks of one decision, in the order in which they are made. */
    method JudgeDecision(step: Step, d: nat, next: Projection) returns (r: Result<ProcessStatus, RunError>)
      ensures r == Judge(View(), step, d, env, next)
    {
      var script := PayloadFor(step, next, env.journey);
      if script.FactUnavailable? { return Err(FactTrouble); }
      if script.ParametersInvalid? { return Err(InvalidParameters); }
      var decision := DecisionOf(step, d, pending, script.payload, now);
      var accepted := Transitions.ValidateDecision(
        decision, env.policy, TurnOf(pending, now), {}, Known(next));
      if !accepted { return Err(PolicyRefused); }
      if script.IdentityChanged? { return Err(ChangedIdentity); }
      if !env.fits(next) { return Err(PolicyRefused); }
      if step.ActionStep? && step.actionType in env.comms.outboundTypes {
        var blocks := Communications.EvaluateCommunicationSafety(env.comms, ContactFacts(), now);
        if blocks != [] { return Err(PolicyRefused); }
      }
      var transition := Transitions.NextStatus(
        decision, OpenAfter(step, d, env), env.mayComplete, next.authoritative, env.policy.completion);
      if transition.Err? { return Err(PolicyRefused); }
      r := Ok(transition.value);
    }

    /** Check and apply the decision of one step, then its fact assertions. */
    method ApplyDecision(first: nat, d: nat) returns (r: Result<Scripted, RunError>)
      requires first == index <= d < |steps| && steps[d].IsDecision()
      requires forall m :: first <= m < d ==> steps[m].FactStep?
      modifies this
      ensures r.Err? ==> Decide(old(View()), d, steps, env) == Err(r.error)
      ensures r.Ok? ==> r.value.Kept? && index == d + 1
      ensures r.Ok? ==> Decide(old(View()), d, steps, env) == Act(View(), steps[d], d, r.value, env)
    {
      var step := steps[d];
      var next := PreflightFold(snapshot, SourcesOf(pending));
      var judged := JudgeDecision(step, d, next);
      if judged.Err? { return Err(judged.error); }
      var script := PayloadFor(step, next, env.journey);
      NoteSend(step);
      Settle(d, next, judged.value, WakesAfter(step, d, now, judged.value, env),
             Decided(d, DecisionOf(step, d, pending, script.payload, now)));
      var checked := AssertFacts(first, d);
      if !checked { return Err(FactTrouble); }
      r := Ok(script);
    }

    /** A proposed message is recorded at the time of its admission. */
    method NoteSend(step: Step)
      modifies this`outboundTimes
      ensures View() == old(View()).(contact := ContactAfter(old(View()), step, env))
    {
      if step.ActionStep? && step.actionType in env.comms.outboundTypes &&
         !PermissionOf(step.actionType, env.journey.permissions).Deny? {
        outboundTimes := outboundTimes + [now];
      }
    }

    /** The snapshot after an accepted decision. */
    method Settle(d: nat, next: Projection, nextStatus: ProcessStatus, nextWakes: seq<Wake>, entry: Seen)
      modifies this
      ensures View() == old(View()).(
                index := d + 1, facts := next, status := nextStatus, wakes := nextWakes,
                pending := Idle, trace := old(trace) + [entry])
    {
      status, wakes, snapshot := nextStatus, nextWakes, next;
      pending := Idle;
      index := d + 1;
      trace := trace + [entry];
    }

    method AssertFacts(first: nat, d: nat) returns (ok: bool)
      requires first <= d <= |steps| && forall m :: first <= m < d ==> steps[m].FactStep?
      modifies this`trace
      ensures ok <==> AssertAll(steps, first, d, snapshot).Some?
      ensures ok ==> trace == old(trace) + AssertAll(steps, first, d, snapshot).value
    {
      for m := first to d
        invariant AssertAll(steps, first, m, snapshot).Some?
        invariant trace == old(trace) + AssertAll(steps, first, m, snapshot).value
      {
        var actual := AssertFact(steps[m].key, steps[m].expected, snapshot);
        if actual.None? {
          AssertAllFails(steps, first, m + 1, d, snapshot);
          return false;
        }
        trace := trace + [SawFact(m, actual.value)];
      }
      ok := true;
    }

    /** Execute an approved action, advance the clock for a timer, or just go on. */
    method CarryOut(d: nat, script: Scripted) returns (error: Option<RunError>)
      requires d < |steps| && script.Kept?
      modifies this`pending, this`calls, this`now
      ensures Act(old(View()), steps[d], d, script, env) ==
              if error.None? then Ok(View()) else Err(error.value)
    {
      match steps[d] {
        case ActionStep(actionType, action) =>
          var permission := PermissionOf(actionType, env.journey.permissions);
          if permission.RequireApproval? {
            if !action.approve { return Some(Malformed(ApprovalMissing)); }
          } else if action.approve {
            return Some(Malformed(ApprovalUnneeded));
          }
          if permission.Deny? { return Some(Malformed(DeniedByPolicy)); }
          if actionType !in env.bindings { return Some(Malformed(NoAdapter)); }
          var result := env.provider(calls, script.payload, snapshot.authoritative);
          if result.None? { return Some(ProviderRefused); }
          pending := GotResult(Key(0, d, 1, script.payload), result.value);
          calls := calls + 1;
        case WaitForTimer(timer, delay) =>
          now := now + delay;
          pending := GotTimer(timer);
        case _ =>
      }
      error := None;
    }
  }

  method Run(steps: seq<Step>, env: Env) returns (r: Result<Outcome, RunError>)
    ensures var final := KernelFrom(Start(env), steps, env);
            r == if final.Ok? then Ok(Outcome(final.value.facts, final.value.trace)) else Err(final.error)
  {
    hide Judge, Decide, Act, TakeEvent, AssertAll, Communications.LifetimeBlock;
    var k := new KernelRun(steps, env);
    while k.index < |steps|
      invariant k.index <= |steps| && k.steps == steps && k.env == env
      invariant KernelFrom(k.View(), steps, env) == KernelFrom(Start(env), steps, env)
      decreases |steps| - k.index
    {
      ghost var head := k.View();
      var failed := k.TakeWake();
      if failed.Some? { return Err(failed.value); }
      var first, d := k.index, k.index;
      while d < |steps| && steps[d].FactStep?
        invariant first <= d <= |steps|
        invariant forall m :: first <= m < d ==> steps[m].FactStep?
        invariant SkipFacts(steps, d) == SkipFacts(steps, first)
      {
        d := d + 1;
      }
      if d >= |steps| { return Err(Malformed(NoDecision)); }
      if !steps[d].IsDecision() { return Err(Malformed(UnexpectedStep)); }
      if Communications.LifetimeBlock(env.startedAt, env.comms, k.now).Some? { return Err(PolicyRefused); }
      var decided := k.ApplyDecision(first, d);
      if decided.Err? { return Err(decided.error); }
      failed := k.CarryOut(d, decided.value);
      if failed.Some? { return Err(failed.value); }
      assert KernelTurn(head, steps, env) == Ok(k.View());
    }
    if !k.status.Completed? { return Err(Malformed(NotCompleted)); }
    r := Ok(Outcome(k.snapshot, k.trace));
  }

  // ------------------------------------------------- what a turn answers

  /** The turn at k opens by an event, or has its wake source, and decides at step d. */
  ghost predicate DecidesAt(k: Kernel, d: nat, steps: seq<Step>)
    requires k.index < |steps|
  {
    var first := if k.pending.Idle? then k.index + 1 else k.index;
    && (k.pending.Idle? ==> steps[k.index].EventStep?)
    && first <= d <= |steps|
    && (forall m :: first <= m < d ==> steps[m].FactStep?)
    && (d < |steps| ==> !steps[d].FactStep?)
  }

  predicate NeedsApproval(t: string, permissions: map<string, Permission>) {
    t in permissions && permissions[t].RequireApproval?
  }

  /** The action step does not fit its permission or its adapters. */
  predicate Misfit(kind: Structural, step: Step, env: Env) {
    step.ActionStep? &&
    match kind
    case ApprovalMissing => NeedsApproval(step.actionType, env.journey.permissions) && !step.action.approve
    case ApprovalUnneeded => !NeedsApproval(step.actionType, env.journey.permissions) && step.action.approve
    case DeniedByPolicy =>
      step.actionType in env.journey.permissions ==> env.journey.permissions[step.actionType].Deny?
    case NoAdapter => step.actionType !in env.bindings
    case _ => false
  }

  /** The script, its permissions or its adapters do not fit the turn at k. */
  ghost predicate Misshapen(kind: Structural, k: Kernel, d: nat, steps: seq<Step>, env: Env)
    requires k.index < |steps|
  {
    match kind
    case NoWakeSource => k.pending.Idle? && !steps[k.index].EventStep?
    case NotWaiting =>
      && k.pending.Idle? && 0 < k.index && steps[k.index].EventStep?
      && forall w :: w in k.wakes ==> w != EventWake(steps[k.index].eventType)
    case NoDecision => DecidesAt(k, d, steps) && d == |steps|
    case UnexpectedStep => DecidesAt(k, d, steps) && d < |steps| && steps[d].EventStep?
    case _ => DecidesAt(k, d, steps) && d < |steps| && Misfit(kind, steps[d], env)
  }

  /** The status and the wakes that a decision step leaves. */
  ghost predicate SettledBy(step: Step, now: int, status: ProcessStatus, wakes: seq<Wake>,
                            permissions: map<string, Permission>)
  {
    match step
    case ActionStep(t, _) =>
      t in permissions && !permissions[t].Deny? ==>
        if permissions[t].RequireApproval? then status.Review? && wakes == [HumanWake(ApprovalInteraction)]
        else status.Active? && wakes == []
    case WaitForEvent(t) => status.Waiting? && wakes == [EventWake(t)]
    case WaitForTimer(_, delay) => status.Waiting? && wakes == [TimerWake(now + delay)]
    case _ => status.Completed? && wakes == []
  }

  /** The provider was called with the payload, and its result is the next wake source. */
  ghost predicate Called(after: Kernel, k: Kernel, d: nat, payload: Payload, env: Env) {
    var result := env.provider(k.calls, payload, after.facts.authoritative);
    result.Some? && after.calls == k.calls + 1 && after.pending == GotResult(Key(0, d, 1, payload), result.value)
  }

  /** What the decision at step d leaves, and what it makes happen. */
  ghost predicate CarriedOut(after: Kernel, k: Kernel, d: nat, steps: seq<Step>, env: Env)
    requires d < |steps|
  {
    && after.index == d + 1
    && SettledBy(steps[d], k.now, after.status, after.wakes, env.journey.permissions)
    && match steps[d]
       case ActionStep(t, action) =>
         && t in env.journey.permissions && !env.journey.permissions[t].Deny? && t in env.bindings
         && Resolve(action.parameters, after.facts).Some?
         && env.journey.encode(t, Resolve(action.parameters, after.facts).value) == Resolve(action.parameters, after.facts)
         && Called(after, k, d, Payload(t, Resolve(action.parameters, after.facts).value), env)
         && after.now == k.now
         && (action.approve <==> env.journey.permissions[t].RequireApproval?)
         && after.contact.outbound ==
            if t in env.comms.outboundTypes then k.contact.outbound + [k.now] else k.contact.outbound
       case WaitForEvent(_) =>
         && after.pending.Idle?
         && after.calls == k.calls && after.now == k.now && after.contact.outbound == k.contact.outbound
       case WaitForTimer(timer, delay) =>
         && after.pending == GotTimer(timer)
         && after.calls == k.calls && after.now == k.now + delay && after.contact.outbound == k.contact.outbound
       case CompleteStep =>
         && after.pending.Idle?
         && after.calls == k.calls && after.now == k.now && after.contact.outbound == k.contact.outbound
       case _ => false
  }

  lemma TakenEvent(k: Kernel, steps: seq<Step>, env: Env, d: nat)
    requires k.index < |steps|
    ensures match TakeEvent(k, steps, env)
            case Err(Malformed(kind)) => Misshapen(kind, k, d, steps, env)
            case Err(e) => e.FactTrouble?
            case Ok(fed) =>
              && fed.index == (if k.pending.Idle? then k.index + 1 else k.index) && !fed.pending.Idle?
              && fed.now == k.now && fed.calls == k.calls && fed.contact.outbound == k.contact.outbound
              && (k.pending.Idle? ==> steps[k.index].EventStep? &&
                                      (k.index == 0 || EventWake(steps[k.index].eventType) in k.wakes))
  {}

  lemma JudgedAs(k: Kernel, step: Step, d: nat, env: Env, facts: Projection)
    requires step.IsDecision()
    ensures match Judge(k, step, d, env, facts)
            case Err(e) => !e.Malformed?
            case Ok(status) =>
              && PayloadFor(step, facts, env.journey).Kept?
              && SettledBy(step, k.now, status, WakesAfter(step, d, k.now, status, env), env.journey.permissions)
  {
    hide Transitions.Valid;
    var open := OpenAfter(step, d, env);
    if step.ActionStep? && PermissionOf(step.actionType, env.journey.permissions) != Deny {
      assert d in open;
    } else {
      assert open == map[];
    }
  }

  lemma DecidedAs(k: Kernel, d: nat, steps: seq<Step>, env: Env)
    requires k.index <= d < |steps| && steps[d].IsDecision()
    requires forall m :: k.index <= m < d ==> steps[m].FactStep?
    ensures match Decide(k, d, steps, env)
            case Err(Malformed(kind)) =>
              Misfit(kind, steps[d], env)
            case Err(_) => true
            case Ok(after) => CarriedOut(after, k, d, steps, env) && forall kind :: !Misfit(kind, steps[d], env)
  {
    hide Judge, AssertAll, WakesAfter, Project;
    var facts := Project(k.facts, SourcesOf(k.pending));
    JudgedAs(k, steps[d], d, env, facts);
  }

  /** A turn of any step list fails structurally exactly for the reason it names, and otherwise
      carries out the decision of its step. */
  lemma TurnExactly(k: Kernel, steps: seq<Step>, env: Env, d: nat)
    requires k.index < |steps|
    requires DecidesAt(k, d, steps) || (k.pending.Idle? && !steps[k.index].EventStep?)
    ensures match KernelTurn(k, steps, env)
            case Err(Malformed(kind)) => Misshapen(kind, k, d, steps, env)
            case Err(_) => true
            case Ok(after) =>
              && d < |steps| && CarriedOut(after, k, d, steps, env)
              && forall kind :: !Misshapen(kind, k, d, steps, env)
  {
    hide Decide, TakeEvent, Communications.LifetimeBlock;
    TakenEvent(k, steps, env, d);
    var fed := TakeEvent(k, steps, env);
    if fed.Ok? {
      var at := SkipFacts(steps, fed.value.index);
      assert at == d;
      if d < |steps| && steps[d].IsDecision() {
        DecidedAs(fed.value, d, steps, env);
      }
    }
  }
}
