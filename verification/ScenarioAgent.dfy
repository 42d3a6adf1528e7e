/** The Temporal scenario agent: a second interpreter of the same compiled steps. */
module ScenarioAgent {
  import opened Contracts
  import opened Knowledge
  import opened Scenarios

  datatype InboundEvent = InboundEvent(id: Id, eventType: string, facts: seq<Observation>)

  datatype ActionResult = ActionResult(
    request: Id, actionType: string, succeeded: bool, attempt: Key, facts: seq<Observation>)

  /** What the durable runtime hands to an agent turn. */
  datatype TurnInput = TurnInput(
    turn: Id, now: int, process: Projection,
    events: seq<InboundEvent>, reviews: nat, results: seq<ActionResult>, timers: seq<string>)

  datatype ExpectedWake = Nothing | AnEvent(step: nat) | AResult(step: nat) | ATimer(step: nat)

  datatype Checkpoint =
    | NoCheckpoint
    | ApprovalCheckpoint(step: nat)
    | EventCheckpoint(step: nat, eventStep: nat)
    | TimerCheckpoint(step: nat, delay: nat)
    | CompleteCheckpoint(step: nat)

  datatype Agent = Agent(cursor: nat, expected: ExpectedWake, checkpoint: Checkpoint, trace: seq<Seen>)

  const Fresh := Agent(0, Nothing, NoCheckpoint, [])

  function EventSources(events: seq<InboundEvent>): seq<Source> {
    seq(|events|, i requires 0 <= i < |events| => Source(FromEvent(events[i].id), events[i].facts))
  }

  function ResultSources(results: seq<ActionResult>): seq<Source> {
    seq(|results|, i requires 0 <= i < |results| => Source(FromAttempt(results[i].attempt), results[i].facts))
  }

  /** The facts a scripted decision may read: those of the process and of its wake sources. */
  function Prospective(input: TurnInput): Projection {
    Project(input.process, EventSources(input.events) + ResultSources(input.results))
  }

  /** Past the end the last step stands in. */
  function CurrentStep(steps: seq<Step>, cursor: nat): Step
    requires steps != []
  {
    if cursor < |steps| then steps[cursor] else steps[|steps| - 1]
  }

  predicate OnlyWake(input: TurnInput, events: nat, results: nat, timers: nat) {
    |input.events| == events && input.reviews == 0 && |input.results| == results && |input.timers| == timers
  }

  // --------------------------------------------------- reference semantics

  /** The wake source of a turn must be the one that the script expects. */
  function ConsumeWake(a: Agent, input: TurnInput, steps: seq<Step>): (r: Result<Agent, RunError>)
    requires steps != []
    ensures r.Ok? ==> a.cursor <= r.value.cursor <= a.cursor + 1
  {
    var wrong := Err(Malformed(WrongWake));
    match a.expected
    case Nothing =>
      var step := CurrentStep(steps, a.cursor);
      if !step.EventStep? then Err(Malformed(NoWakeSource))
      else if !OnlyWake(input, 1, 0, 0) || input.events[0].eventType != step.eventType then wrong
      else Ok(a.(cursor := a.cursor + 1, trace := a.trace + [SawEvent(a.cursor)]))
    case AnEvent(e) =>
      if !OnlyWake(input, 1, 0, 0) || e >= |steps| || !steps[e].EventStep? ||
         input.events[0].eventType != steps[e].eventType then wrong
      else Ok(a.(cursor := a.cursor + 1, expected := Nothing, trace := a.trace + [SawEvent(e)]))
    case AResult(s) =>
      if !OnlyWake(input, 0, 1, 0) || s >= |steps| || !steps[s].ActionStep? ||
         input.results[0].request != s || input.results[0].actionType != steps[s].actionType ||
         !input.results[0].succeeded then wrong
      else Ok(a.(expected := Nothing))
    case ATimer(_) =>
      if !OnlyWake(input, 0, 0, 1) then wrong else Ok(a.(expected := Nothing))
  }

  function AgentDecision(input: TurnInput, step: Step, index: nat, payload: Payload): Decision {
    ScriptedDecision(
      step, index,
      seq(|input.events|, i requires 0 <= i < |input.events| => input.events[i].id),
      seq(|input.results|, i requires 0 <= i < |input.results| => input.results[i].attempt),
      input.timers, payload, input.now)
  }

  /** What the agent expects next, and what it asks its driver to do. */
  function Plan(a: Agent, step: Step, index: nat, steps: seq<Step>, j: Journey): Result<Agent, RunError> {
    match step
    case ActionStep(actionType, _) =>
      var permission := PermissionOf(actionType, j.permissions);
      if permission.Deny? then Err(Malformed(DeniedByPolicy))
      else Ok(a.(expected := AResult(index),
                 checkpoint := if permission.RequireApproval? then ApprovalCheckpoint(index) else a.checkpoint))
    case WaitForEvent(awaited) =>
      if a.cursor >= |steps| || !steps[a.cursor].EventStep? || steps[a.cursor].eventType != awaited
      then Err(Malformed(AwaitedEventMissing))
      else Ok(a.(expected := AnEvent(a.cursor), checkpoint := EventCheckpoint(index, a.cursor)))
    case WaitForTimer(_, delay) =>
      Ok(a.(expected := ATimer(index), checkpoint := TimerCheckpoint(index, delay)))
    case _ => Ok(a.(expected := Nothing, checkpoint := CompleteCheckpoint(index)))
  }

  /** The first step at or after the cursor that is not a fact assertion. */
  function Ahead(steps: seq<Step>, first: nat): (d: nat)
    ensures d >= first
  {
    if first <= |steps| then SkipFacts(steps, first) else first
  }

  function Assertions(steps: seq<Step>, first: nat, facts: Projection): Option<seq<Seen>> {
    if first <= |steps| then AssertAll(steps, first, SkipFacts(steps, first), facts) else Some([])
  }

  /** The agent after it recorded its decision at step d and the assertions before it. */
  function Recorded(a: Agent, d: nat, decision: Decision, asserted: seq<Seen>): Agent {
    a.(cursor := d + 1, trace := a.trace + [Decided(d, decision)] + asserted)
  }

  /** The decision of an agent that has consumed its wake source. */
  function DecisionAfter(woken: Agent, input: TurnInput, steps: seq<Step>, j: Journey)
    : (r: Result<(Agent, Decision), RunError>)
    requires steps != []
    ensures r.Ok? ==> woken.cursor < r.value.0.cursor
  {
    var d := Ahead(steps, woken.cursor);
    var facts := Prospective(input);
    var asserted := Assertions(steps, woken.cursor, facts);
    var step := CurrentStep(steps, d);
    if asserted.None? then Err(FactTrouble)
    else if !step.IsDecision() then Err(Malformed(UnexpectedStep))
    else
      var script := PayloadFor(step, facts, j);
      if script.FactUnavailable? then Err(FactTrouble)
      else if script.ParametersInvalid? then Err(InvalidParameters)
      else if script.IdentityChanged? then Err(ChangedIdentity)
      else
        var decision := AgentDecision(input, step, d, script.payload);
        var planned := Plan(Recorded(woken, d, decision, asserted.value), step, d, steps, j);
        if planned.Err? then Err(planned.error) else Ok((planned.value, decision))
  }

  /** One agent turn: the new agent state and its decision. */
  function NextDecision(a: Agent, input: TurnInput, steps: seq<Step>, j: Journey)
    : (r: Result<(Agent, Decision), RunError>)
    requires steps != []
    ensures r.Ok? ==> a.cursor < r.value.0.cursor
  {
    var woken := ConsumeWake(a, input, steps);
    if woken.Err? then Err(woken.error) else DecisionAfter(woken.value, input, steps, j)
  }

  // ------------------------------------------------------------ the class

  /** testkit/temporal_scenarios.py _CompiledScenarioAgent. */
  class CompiledScenarioAgent {
    const steps: seq<Step>
    const journey: Journey
    var cursor: nat
    var expectedWake: ExpectedWake
    var checkpoint: Checkpoint
    var trace: seq<Seen>
    var decisionsByTurn: map<Id, Decision>

    ghost function View(): Agent
      reads this
    {
      Agent(cursor, expectedWake, checkpoint, trace)
    }

    constructor (steps: seq<Step>, journey: Journey)
      ensures View() == Fresh && decisionsByTurn == map[]
      ensures this.steps == steps && this.journey == journey
    {
      this.steps, this.journey := steps, journey;
      cursor, expectedWake, checkpoint, trace, decisionsByTurn := 0, Nothing, NoCheckpoint, [], map[];
    }

    /** A turn that was already decided gets the same decision again and moves nothing. */
    method RunTurn(input: TurnInput) returns (r: Result<Decision, RunError>)
      requires steps != []
      modifies this
      ensures input.turn in old(decisionsByTurn) ==>
                r == Ok(old(decisionsByTurn)[input.turn]) &&
                View() == old(View()) && decisionsByTurn == old(decisionsByTurn)
      ensures input.turn !in old(decisionsByTurn) && r.Ok? ==>
                NextDecision(old(View()), input, steps, journey) == Ok((View(), r.value)) &&
                decisionsByTurn == old(decisionsByTurn)[input.turn := r.value]
      ensures r.Err? ==>
                NextDecision(old(View()), input, steps, journey) == Err(r.error) &&
                decisionsByTurn == old(decisionsByTurn)
    {
      if input.turn in decisionsByTurn { return Ok(decisionsByTurn[input.turn]); }
      var refused := TakeWake(input);
      if refused.Some? { return Err(refused.value); }
      r := Decide(input);
      if r.Ok? { decisionsByTurn := decisionsByTurn[input.turn := r.value]; }
    }

    method TakeWake(input: TurnInput) returns (error: Option<RunError>)
      requires steps != []
      modifies this`cursor, this`expectedWake, this`trace
      ensures ConsumeWake(old(View()), input, steps) ==
              if error.None? then Ok(View()) else Err(error.value)
    {
      match expectedWake {
        case Nothing =>
          var step := CurrentStep(steps, cursor);
          if !step.EventStep? { return Some(Malformed(NoWakeSource)); }
          if !OnlyWake(input, 1, 0, 0) || input.events[0].eventType != step.eventType {
            return Some(Malformed(WrongWake));
          }
          trace := trace + [SawEvent(cursor)];
          cursor := cursor + 1;
        case AnEvent(e) =>
          if !OnlyWake(input, 1, 0, 0) || e >= |steps| || !steps[e].EventStep? ||
             input.events[0].eventType != steps[e].eventType {
            return Some(Malformed(WrongWake));
          }
          trace := trace + [SawEvent(e)];
          cursor := cursor + 1;
        case AResult(s) =>
          if !OnlyWake(input, 0, 1, 0) || s >= |steps| || !steps[s].ActionStep? ||
             input.results[0].request != s || input.results[0].actionType != steps[s].actionType ||
             !input.results[0].succeeded {
            return Some(Malformed(WrongWake));
          }
        case ATimer(_) =>
          if !OnlyWake(input, 0, 0, 1) { return Some(Malformed(WrongWake)); }
      }
      expectedWake := Nothing;
      error := None;
    }

    /** Skip the fact assertions ahead and check them on the turn's facts. */
    method CheckAssertions(snapshot: Projection, ghost facts: Projection) returns (r: Option<seq<Seen>>)
      requires snapshot.authoritative == facts.authoritative && snapshot.claims == facts.claims
      modifies this`cursor
      ensures r == Assertions(steps, old(cursor), facts)
      ensures r.Some? ==> cursor == Ahead(steps, old(cursor))
    {
      ghost var first := cursor;
      var assertions: seq<Seen> := [];
      while cursor < |steps| && steps[cursor].FactStep?
        invariant first <= cursor && (cursor == first || cursor <= |steps|)
        invariant forall m :: first <= m < cursor ==> steps[m].FactStep?
        invariant first <= |steps| ==>
          SkipFacts(steps, cursor) == SkipFacts(steps, first) &&
          AssertAll(steps, first, cursor, facts) == Some(assertions)
        invariant first > |steps| ==> assertions == []
        decreases |steps| - cursor
      {
        var actual := AssertFact(steps[cursor].key, steps[cursor].expected, snapshot);
        if actual.None? {
          AssertAllFails(steps, first, cursor + 1, SkipFacts(steps, cursor + 1), facts);
          return None;
        }
        assertions := assertions + [SawFact(cursor, actual.value)];
        cursor := cursor + 1;
      }
      r := Some(assertions);
    }

    /** The part of a turn after its wake source was accepted. */
    method Decide(input: TurnInput) returns (r: Result<Decision, RunError>)
      requires steps != []
      modifies this`cursor, this`expectedWake, this`trace, this`checkpoint
      ensures DecisionAfter(old(View()), input, steps, journey) ==
              if r.Ok? then Ok((View(), r.value)) else Err(r.error)
    {
      hide AssertFact, AgentDecision, Plan, Decided;
      var a, c := ProspectiveFold(input.process.authoritative, input.process.claims,
                                  EventSources(input.events) + ResultSources(input.results));
      var snapshot := Projection(a, c, map[]);
      ghost var facts := Prospective(input);
      assert Projection(input.process.authoritative, input.process.claims, input.process.provenance) == input.process;
      var assertions := CheckAssertions(snapshot, facts);
      if assertions.None? { return Err(FactTrouble); }
      var index := cursor;
      var step := CurrentStep(steps, index);
      if !step.IsDecision() { return Err(Malformed(UnexpectedStep)); }
      var script := PayloadFor(step, snapshot, journey);
      PayloadIgnoresProvenance(step, snapshot, facts, journey);
      if script.FactUnavailable? { return Err(FactTrouble); }
      if script.ParametersInvalid? { return Err(InvalidParameters); }
      if script.IdentityChanged? { return Err(ChangedIdentity); }
      var decision := AgentDecision(input, step, index, script.payload);
      trace := trace + [Decided(index, decision)] + assertions.value;
      cursor := index + 1;
      var refused := Expect(step, index);
      if refused.Some? { return Err(refused.value); }
      r := Ok(decision);
    }

    method Expect(step: Step, index: nat) returns (error: Option<RunError>)
      modifies this`expectedWake, this`checkpoint
      ensures Plan(old(View()), step, index, steps, journey) ==
              if error.None? then Ok(View()) else Err(error.value)
    {
      match step {
        case ActionStep(actionType, _) =>
          var permission := PermissionOf(actionType, journey.permissions);
          if permission.Deny? { return Some(Malformed(DeniedByPolicy)); }
          expectedWake := AResult(index);
          if permission.RequireApproval? { checkpoint := ApprovalCheckpoint(index); }
        case WaitForEvent(awaited) =>
          if cursor >= |steps| || !steps[cursor].EventStep? || steps[cursor].eventType != awaited {
            return Some(Malformed(AwaitedEventMissing));
          }
          expectedWake, checkpoint := AnEvent(cursor), EventCheckpoint(index, cursor);
        case WaitForTimer(_, delay) =>
          expectedWake, checkpoint := ATimer(index), TimerCheckpoint(index, delay);
        case _ =>
          expectedWake, checkpoint := Nothing, CompleteCheckpoint(index);
      }
      error := None;
    }
  }

  lemma {:induction false} ResolveIgnoresProvenance(v: Json, p: Projection, q: Projection)
    requires p.authoritative == q.authoritative && p.claims == q.claims
    ensures Resolve(v, p) == Resolve(v, q)
  {
    match v
    case Obj(fields) =>
      forall k | k in fields ensures Resolve(fields[k], p) == Resolve(fields[k], q) {
        ResolveIgnoresProvenance(fields[k], p, q);
      }
      if !IsReference(fields) && Resolve(v, p).Some? {
        assert Resolve(v, p).value.fields == Resolve(v, q).value.fields;
      }
    case Arr(items) =>
      forall i | 0 <= i < |items| ensures Resolve(items[i], p) == Resolve(items[i], q) {
        ResolveIgnoresProvenance(items[i], p, q);
      }
      if Resolve(v, p).Some? {
        assert Resolve(v, p).value.items == Resolve(v, q).value.items;
      }
    case _ =>
  }

  lemma PayloadIgnoresProvenance(step: Step, p: Projection, q: Projection, j: Journey)
    requires p.authoritative == q.authoritative && p.claims == q.claims
    ensures PayloadFor(step, p, j) == PayloadFor(step, q, j)
  {
    if step.ActionStep? { ResolveIgnoresProvenance(step.action.parameters, p, q); }
  }

  // ------------------------------------------------- what a turn answers

  /** The turn has a single wake source, and it is the one the agent waits for. */
  ghost predicate Awaited(a: Agent, input: TurnInput, steps: seq<Step>)
    requires steps != []
  {
    && |input.events| + input.reviews + |input.results| + |input.timers| == 1
    && match a.expected
       case Nothing =>
         var step := if a.cursor < |steps| then steps[a.cursor] else steps[|steps| - 1];
         step.EventStep? && exists e :: e in input.events && e.eventType == step.eventType
       case AnEvent(s) =>
         s < |steps| && steps[s].EventStep? && exists e :: e in input.events && e.eventType == steps[s].eventType
       case AResult(s) =>
         && s < |steps| && steps[s].ActionStep?
         && exists r :: r in input.results && r.request == s && r.actionType == steps[s].actionType && r.succeeded
       case ATimer(_) => input.timers != []
  }

  /** A wake source is consumed exactly when it is the one awaited; an event moves the cursor past
      its step and enters the trace. */
  lemma WakeExactly(a: Agent, input: TurnInput, steps: seq<Step>)
    requires steps != []
    ensures match ConsumeWake(a, input, steps)
            case Ok(woken) =>
              && Awaited(a, input, steps)
              && woken ==
                 if input.events == [] then a.(expected := Nothing)
                 else Agent(a.cursor + 1, Nothing, a.checkpoint,
                            a.trace + [SawEvent(if a.expected.AnEvent? then a.expected.step else a.cursor)])
            case Err(e) =>
              && !Awaited(a, input, steps)
              && (e == Malformed(NoWakeSource) || e == Malformed(WrongWake))
              && (e == Malformed(NoWakeSource) <==>
                  a.expected.Nothing? && if a.cursor < |steps| then !steps[a.cursor].EventStep?
                                         else !steps[|steps| - 1].EventStep?)
  {
    if |input.events| == 1 { assert input.events[0] in input.events; }
    if |input.results| == 1 { assert input.results[0] in input.results; }
  }

  /** The first decision step at or after the cursor of the woken agent. */
  ghost predicate IsNext(d: nat, woken: Agent, steps: seq<Step>) {
    && woken.cursor <= d && (d > |steps| ==> d == woken.cursor)
    && (forall m :: woken.cursor <= m < d && m < |steps| ==> steps[m].FactStep?)
    && (d < |steps| ==> !steps[d].FactStep?)
  }

  /** The facts of the turn differ from what step m asserts. */
  ghost predicate Contradicts(m: nat, steps: seq<Step>, facts: Projection) {
    && m < |steps| && steps[m].FactStep?
    && var key := steps[m].key;
       if key in facts.authoritative then facts.authoritative[key] != steps[m].expected
       else key in facts.claims ==> facts.claims[key] != steps[m].expected
  }

  /** The assertions from i to d, each seen with the value that it states. */
  ghost function Confirmed(steps: seq<Step>, i: nat, d: nat): seq<Seen>
    requires i <= d && (d > |steps| ==> d == i)
    requires forall m :: i <= m < d && m < |steps| ==> steps[m].FactStep?
  {
    seq(d - i, n requires 0 <= n < d - i => SawFact(i + n, steps[i + n].expected))
  }

  /** What an error says about the decision of the woken agent at step d. */
  ghost predicate RefusedAt(e: RunError, woken: Agent, d: nat, input: TurnInput, steps: seq<Step>, j: Journey)
    requires steps != [] && IsNext(d, woken, steps)
  {
    var step, facts := if d < |steps| then steps[d] else steps[|steps| - 1], Prospective(input);
    var parameters := if step.ActionStep? then Resolve(step.action.parameters, facts) else None;
    match e
    case FactTrouble =>
      || (step.ActionStep? && parameters.None?)
      || (exists m :: woken.cursor <= m < d && Contradicts(m, steps, facts))
    case InvalidParameters => parameters.Some? && j.encode(step.actionType, parameters.value).None?
    case ChangedIdentity =>
      && parameters.Some? && j.encode(step.actionType, parameters.value).Some?
      && j.encode(step.actionType, parameters.value) != parameters
    case Malformed(UnexpectedStep) => step.EventStep? || step.FactStep?
    case Malformed(DeniedByPolicy) =>
      step.ActionStep? && (step.actionType in j.permissions ==> j.permissions[step.actionType].Deny?)
    case Malformed(AwaitedEventMissing) =>
      step.WaitForEvent? && !(d + 1 < |steps| && steps[d + 1].EventStep? && steps[d + 1].eventType == step.awaited)
    case _ => false
  }

  /** The state in which a decision at step d leaves the agent. */
  ghost predicate LeftBy(after: Agent, woken: Agent, d: nat, decision: Decision, steps: seq<Step>, j: Journey)
    requires steps != [] && IsNext(d, woken, steps)
  {
    var step := if d < |steps| then steps[d] else steps[|steps| - 1];
    && after.cursor == d + 1
    && after.trace == woken.trace + [SawDecision(d, decision.actions, decision.wakes)] +
                      Confirmed(steps, woken.cursor, d)
    && match step
       case ActionStep(t, _) =>
         && after.expected == AResult(d) && t in j.permissions
         && after.checkpoint == if j.permissions[t].RequireApproval? then ApprovalCheckpoint(d) else woken.checkpoint
       case WaitForEvent(_) => after.expected == AnEvent(d + 1) && after.checkpoint == EventCheckpoint(d, d + 1)
       case WaitForTimer(_, delay) => after.expected == ATimer(d) && after.checkpoint == TimerCheckpoint(d, delay)
       case CompleteStep => after.expected == Nothing && after.checkpoint == CompleteCheckpoint(d)
       case _ => false
  }

  lemma AheadIsNext(woken: Agent, steps: seq<Step>)
    ensures IsNext(Ahead(steps, woken.cursor), woken, steps)
  {}

  lemma {:induction false} AssertionsExactly(steps: seq<Step>, i: nat, d: nat, facts: Projection)
    requires i <= d <= |steps| && forall m :: i <= m < d ==> steps[m].FactStep?
    ensures match AssertAll(steps, i, d, facts)
            case Some(seen) =>
              && (forall m :: i <= m < d ==> !Contradicts(m, steps, facts))
              && seen == Confirmed(steps, i, d)
            case None => exists m :: i <= m < d && Contradicts(m, steps, facts)
    decreases d - i
  {
    if i < d {
      AssertionsExactly(steps, i, d - 1, facts);
      assert Contradicts(d - 1, steps, facts) <==> AssertFact(steps[d - 1].key, steps[d - 1].expected, facts).None?;
      assert Confirmed(steps, i, d) == Confirmed(steps, i, d - 1) + [SawFact(d - 1, steps[d - 1].expected)];
    }
  }

  lemma ScriptExactly(step: Step, facts: Projection, j: Journey)
    ensures !step.ActionStep? ==> PayloadFor(step, facts, j).Kept?
    ensures step.ActionStep? ==>
            var parameters, script := Resolve(step.action.parameters, facts), PayloadFor(step, facts, j);
            && (script.FactUnavailable? <==> parameters.None?)
            && (parameters.Some? ==>
                  var encoded := j.encode(step.actionType, parameters.value);
                  && (script.ParametersInvalid? <==> encoded.None?)
                  && (script.IdentityChanged? <==> encoded.Some? && encoded != parameters)
                  && (script.Kept? ==> script.payload == Payload(step.actionType, parameters.value)))
  {}

  /** A woken agent fails exactly for a condition on its next step, and otherwise decides there. */
  lemma DecisionExactly(woken: Agent, input: TurnInput, steps: seq<Step>, j: Journey, d: nat)
    requires steps != [] && d == Ahead(steps, woken.cursor) && IsNext(d, woken, steps)
    ensures match DecisionAfter(woken, input, steps, j)
            case Err(e) => RefusedAt(e, woken, d, input, steps, j)
            case Ok((after, decision)) =>
              && LeftBy(after, woken, d, decision, steps, j)
              && forall e :: !RefusedAt(e, woken, d, input, steps, j)
  {
    hide Prospective, AssertAll, AssertFact, Resolve, PayloadFor, AgentDecision, Contradicts;
    if woken.cursor <= |steps| { AssertionsExactly(steps, woken.cursor, d, Prospective(input)); }
    if d == woken.cursor { assert Confirmed(steps, d, d) == []; }
    var step := CurrentStep(steps, d);
    ScriptExactly(step, Prospective(input), j);
  }
}
