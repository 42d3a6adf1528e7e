/** Executable scenarios: their steps, the static checker and the shared script. */
module Scenarios {
  import opened Contracts
  import opened Knowledge

  datatype ScenarioEvent = ScenarioEvent(facts: seq<Observation>, payload: Json)

  datatype ScenarioAction = ScenarioAction(
    logicalKey: string, parameters: Json, rationale: string, approve: bool)

  datatype Step =
    | EventStep(eventType: string, event: ScenarioEvent)
    | ActionStep(actionType: string, action: ScenarioAction)
    | WaitForEvent(awaited: string)
    | WaitForTimer(timer: string, delay: nat)
    | FactStep(key: string, expected: Json)
    | CompleteStep
  {
    predicate IsDecision() {
      ActionStep? || WaitForEvent? || WaitForTimer? || CompleteStep?
    }
  }

  /** What the compiler knows about the journey a scenario belongs to. A parameters model
      either rejects a value or re-encodes it. */
  datatype Journey = Journey(
    starts: set<string>,
    wakes: set<string>,
    supplies: map<string, set<string>>,
    factKinds: map<string, set<FactKind>>,
    capabilities: set<string>,
    permissions: map<string, Permission>,
    encode: (string, Json) -> Option<Json>)

  // ---------------------------------------------------------- references

  predicate IsReference(fields: map<string, Json>) {
    "type" in fields && fields["type"] == Str("fact") &&
    forall k :: k in fields ==> k in {"type", "fact_key", "path"}
  }

  function ReferencedKey(fields: map<string, Json>): Option<string> {
    if "fact_key" in fields && fields["fact_key"].Str? then Some(fields["fact_key"].text) else None
  }

  /** Every reference names a known fact. */
  predicate ReferencesKnown(v: Json, known: set<string>) {
    match v
    case Obj(fields) =>
      if IsReference(fields)
      then ReferencedKey(fields).Some? && ReferencedKey(fields).value in known
      else forall k :: k in fields ==> ReferencesKnown(fields[k], known)
    case Arr(items) => forall i :: 0 <= i < |items| ==> ReferencesKnown(items[i], known)
    case _ => true
  }

  predicate HasReferences(v: Json) {
    match v
    case Obj(fields) => IsReference(fields) || exists k :: k in fields && HasReferences(fields[k])
    case Arr(items) => exists i :: 0 <= i < |items| && HasReferences(items[i])
    case _ => false
  }

  function Follow(v: Json, path: seq<Json>): Option<Json>
    decreases |path|
  {
    if path == [] then Some(v)
    else
      match (v, path[0])
      case (Obj(fields), Str(part)) =>
        if part in fields then Follow(fields[part], path[1..]) else None
      case (Arr(items), Num(n)) =>
        if -|items| <= n < |items| then Follow(items[if n < 0 then n + |items| else n], path[1..]) else None
      case (Str(text), Num(n)) =>
        if -|text| <= n < |text| then Follow(Str([text[if n < 0 then n + |text| else n]]), path[1..]) else None
      case _ => None
  }

  /** A script value with every reference replaced by the fact it reads. */
  function Resolve(v: Json, p: Projection): Option<Json> {
    match v
    case Obj(fields) =>
      if IsReference(fields) then
        var key := ReferencedKey(fields);
        var path := if "path" in fields && fields["path"].Arr? then fields["path"].items else [];
        if key.None? then None
        else if key.value in p.authoritative then Follow(p.authoritative[key.value], path)
        else if key.value in p.claims then Follow(p.claims[key.value], path)
        else None
      else if forall k :: k in fields ==> Resolve(fields[k], p).Some? then
        Some(Obj(map k | k in fields :: Resolve(fields[k], p).value))
      else None
    case Arr(items) =>
      if forall i :: 0 <= i < |items| ==> Resolve(items[i], p).Some? then
        Some(Arr(seq(|items|, i requires 0 <= i < |items| => Resolve(items[i], p).value)))
      else None
    case _ => Some(v)
  }

  /** Values without references resolve to themselves, whatever the facts are. */
  lemma {:induction false} LiteralsResolveToThemselves(v: Json, p: Projection)
    requires !HasReferences(v)
    ensures Resolve(v, p) == Some(v)
  {
    match v
    case Obj(fields) =>
      forall k | k in fields ensures Resolve(fields[k], p) == Some(fields[k]) {
        LiteralsResolveToThemselves(fields[k], p);
      }
      var resolved := map k | k in fields :: Resolve(fields[k], p).value;
      assert resolved.Keys == fields.Keys;
      assert forall k :: k in fields ==> resolved[k] == fields[k];
      assert resolved == fields;
    case Arr(items) =>
      forall i | 0 <= i < |items| ensures Resolve(items[i], p) == Some(items[i]) {
        LiteralsResolveToThemselves(items[i], p);
      }
      assert seq(|items|, i requires 0 <= i < |items| => Resolve(items[i], p).value) == items;
    case _ =>
  }

  // ------------------------------------------------------------- checker

  predicate EventOk(eventType: string, e: ScenarioEvent, j: Journey) {
    && eventType in j.supplies
    && (forall a, b :: 0 <= a < b < |e.facts| ==> e.facts[a].key != e.facts[b].key)
    && (forall i :: 0 <= i < |e.facts| ==>
          e.facts[i].key in j.factKinds && e.facts[i].key in j.supplies[eventType] &&
          e.facts[i].kind in j.factKinds[e.facts[i].key] &&
          ReferencesKnown(e.facts[i].value, j.factKinds.Keys))
    && ReferencesKnown(e.payload, j.factKinds.Keys)
  }

  function PermissionOf(actionType: string, permissions: map<string, Permission>): Permission {
    if actionType in permissions then permissions[actionType] else Deny
  }

  predicate ActionOk(actionType: string, a: ScenarioAction, j: Journey) {
    && actionType in j.capabilities
    && ReferencesKnown(a.parameters, j.factKinds.Keys)
    && (!HasReferences(a.parameters) ==> j.encode(actionType, a.parameters).Some?)
    && (a.approve <==> PermissionOf(actionType, j.permissions).RequireApproval?)
    && !PermissionOf(actionType, j.permissions).Deny?
  }

  predicate StepOk(s: Step, j: Journey) {
    match s
    case EventStep(t, e) => EventOk(t, e, j)
    case ActionStep(t, a) => ActionOk(t, a, j)
    case WaitForEvent(t) => t in j.wakes
    case WaitForTimer(_, _) => true
    case FactStep(key, _) => key in j.factKinds
    case CompleteStep => true
  }

  /** The grammar of scenarios: a start event first, completion last and only there, and
      waits for events exactly in front of the events they wait for. */
  predicate WellFormed(steps: seq<Step>, j: Journey) {
    && steps != []
    && steps[0].EventStep? && steps[0].eventType in j.starts
    && (forall i :: 0 <= i < |steps| ==> StepOk(steps[i], j))
    && (forall i :: 0 <= i < |steps| ==> (steps[i].CompleteStep? <==> i == |steps| - 1))
    && (forall i :: 0 < i < |steps| && steps[i].EventStep? ==> steps[i - 1] == WaitForEvent(steps[i].eventType))
    && (forall i :: 0 <= i < |steps| - 1 && steps[i].WaitForEvent? ==> steps[i + 1].EventStep?)
  }

  /** The part of the grammar that the first n steps decide. */
  ghost predicate PrefixOk(steps: seq<Step>, j: Journey, n: nat)
    requires n <= |steps|
  {
    && (forall i :: 0 <= i < n ==> StepOk(steps[i], j))
    && (forall i :: 0 <= i < n && steps[i].CompleteStep? ==> i == |steps| - 1)
    && (forall i :: 0 < i < n && steps[i].EventStep? ==> steps[i - 1] == WaitForEvent(steps[i].eventType))
    && (forall i :: 0 <= i < n - 1 && steps[i].WaitForEvent? ==> steps[i + 1].EventStep?)
  }

  /** projects/compiler.py _validate_scenario: accepts exactly the well-formed scenarios. */
  method ValidateScenario(steps: seq<Step>, j: Journey) returns (accepted: bool)
    requires steps != []
    ensures accepted <==> WellFormed(steps, j)
  {
    if !steps[0].EventStep? || steps[0].eventType !in j.starts { return false; }
    if !steps[|steps| - 1].CompleteStep? { return false; }
    var expectedEvent: Option<string> := None;
    var turnReady := false;
    for index := 0 to |steps|
      invariant PrefixOk(steps, j, index)
      invariant index == 0 ==> expectedEvent.None? && !turnReady
      invariant index > 0 ==>
        (expectedEvent == if steps[index - 1].WaitForEvent? then Some(steps[index - 1].awaited) else None)
      invariant index > 0 ==> (turnReady <==> !steps[index - 1].WaitForEvent? && !steps[index - 1].CompleteStep?)
    {
      var step := steps[index];
      match step {
        case EventStep(eventType, event) =>
          if eventType !in j.supplies { return false; }
          if index > 0 && expectedEvent != Some(eventType) { return false; }
          expectedEvent := None;
          turnReady := true;
          if !EventOk(eventType, event, j) { return false; }
        case ActionStep(actionType, action) =>
          if !turnReady { return false; }
          if !ActionOk(actionType, action, j) { return false; }
          turnReady := true;
        case WaitForEvent(awaited) =>
          if !turnReady { return false; }
          if awaited !in j.wakes { return false; }
          expectedEvent := Some(awaited);
          turnReady := false;
        case WaitForTimer(_, _) =>
          if !turnReady { return false; }
          turnReady := true;
        case FactStep(key, _) =>
          if !turnReady { return false; }
          if key !in j.factKinds { return false; }
        case CompleteStep =>
          if !turnReady { return false; }
          if index != |steps| - 1 { return false; }
          turnReady := false;
      }
    }
    accepted := expectedEvent.None?;
  }

  /** projects/compiler.py compile_project: every scenario action needs a safe simulation
      adapter. `simulated` lists the capabilities that have one. */
  method BindSimulations(steps: seq<Step>, used: seq<string>, simulated: set<string>)
    returns (bindings: Option<set<string>>)
    ensures bindings.Some? <==>
            forall s :: s in steps && s.ActionStep? && s.actionType in used ==> s.actionType in simulated
    ensures bindings.Some? ==>
            forall t :: t in bindings.value <==> t in used && exists s :: s in steps && s.ActionStep? && s.actionType == t
  {
    var found: set<string> := {};
    for i := 0 to |used|
      invariant forall k :: 0 <= k < i && Acts(steps, used[k]) ==> used[k] in simulated
      invariant forall t :: t in found <==> t in used[..i] && Acts(steps, t)
    {
      if Acts(steps, used[i]) {
        if used[i] !in simulated { return None; }
        found := found + {used[i]};
      }
    }
    assert used[..|used|] == used;
    assert forall s :: s in steps && s.ActionStep? ==> Acts(steps, s.actionType);
    bindings := Some(found);
  }

  predicate Acts(steps: seq<Step>, actionType: string) {
    exists i :: 0 <= i < |steps| && steps[i].ActionStep? && steps[i].actionType == actionType
  }

  // ------------------------------------------------------- shared script

  /** The observations of an event, resolved against the facts before it. */
  function BuildEvent(e: ScenarioEvent, p: Projection): Option<seq<Observation>> {
    if Resolve(e.payload, p).Some? &&
       forall i :: 0 <= i < |e.facts| ==> Resolve(e.facts[i].value, p).Some?
    then Some(seq(|e.facts|, i requires 0 <= i < |e.facts| =>
                e.facts[i].(value := Resolve(e.facts[i].value, p).value)))
    else None
  }

  function AssertFact(key: string, expected: Json, p: Projection): Option<Json> {
    var actual :=
      if key in p.authoritative then Some(p.authoritative[key])
      else if key in p.claims then Some(p.claims[key]) else None;
    if actual == Some(expected) then actual else None
  }

  /** A scripted action is either unreadable, invalid, re-encoded to something else, or kept
      together with the payload that is proposed. */
  datatype Scripted = FactUnavailable | ParametersInvalid | IdentityChanged(payload: Payload) | Kept(payload: Payload)

  function BuildAction(actionType: string, a: ScenarioAction, p: Projection, j: Journey): Scripted {
    var resolved := Resolve(a.parameters, p);
    if resolved.None? then FactUnavailable
    else
      var encoded := j.encode(actionType, resolved.value);
      if encoded.None? then ParametersInvalid
      else if encoded.value != resolved.value then IdentityChanged(Payload(actionType, encoded.value))
      else Kept(Payload(actionType, encoded.value))
  }

  /** The parameters model re-encodes the scripted parameters to themselves. */
  predicate NormalForm(actionType: string, a: ScenarioAction, j: Journey) {
    j.encode(actionType, a.parameters) == Some(a.parameters)
  }

  /** For an accepted action without references, the proposed action is the scripted one on
      every fact base exactly when the scripted parameters are in normal form. */
  lemma ActionIdentityExactly(actionType: string, a: ScenarioAction, j: Journey)
    requires ActionOk(actionType, a, j) && !HasReferences(a.parameters)
    ensures NormalForm(actionType, a, j) <==>
            forall p :: BuildAction(actionType, a, p, j) == Kept(Payload(actionType, a.parameters))
    ensures !NormalForm(actionType, a, j) <==>
            forall p :: BuildAction(actionType, a, p, j).IdentityChanged?
  {
    forall p ensures Resolve(a.parameters, p) == Some(a.parameters) {
      LiteralsResolveToThemselves(a.parameters, p);
    }
    assert !BuildAction(actionType, a, Empty, j).IdentityChanged? <==> NormalForm(actionType, a, j);
  }

  function PayloadFor(step: Step, p: Projection, j: Journey): Scripted {
    if step.ActionStep? then BuildAction(step.actionType, step.action, p, j)
    else Kept(Payload("", Null))
  }

  /** The decision a step scripts, on the wake sources of its turn. */
  function ScriptedDecision(step: Step, index: nat, events: seq<Id>, attempts: seq<Key>, timers: seq<string>,
                            payload: Payload, now: int): Decision
  {
    Decision(
      index, events, [], attempts, timers,
      match step {
        case WaitForEvent(_) => DecideWaiting
        case WaitForTimer(_, _) => DecideWaiting
        case ActionStep(_, _) => DecideActive
        case _ => DecideCompleted
      },
      if step.ActionStep?
      then [Proposal(index, step.action.logicalKey, step.actionType, payload.parameters, step.action.rationale)]
      else [],
      match step {
        case WaitForEvent(t) => [EventWake(t)]
        case WaitForTimer(_, delay) => [TimerWake(now + delay)]
        case _ => []
      },
      Memory(None, Cited([], [], [], []), []))
  }

  // ---------------------------------------------- what interpreters report

  datatype Structural =
    | NoWakeSource | NotWaiting | NoDecision | UnexpectedStep
    | ApprovalMissing | ApprovalUnneeded | DeniedByPolicy | NoAdapter | NotCompleted
    | WrongWake | AwaitedEventMissing

  datatype RunError =
    | Malformed(kind: Structural)
    | FactTrouble
    | InvalidParameters
    | ChangedIdentity
    | PolicyRefused
    | ProviderRefused

  /** The parts of a trace on which the interpreters must agree. */
  datatype Seen =
    | SawEvent(step: nat)
    | SawDecision(step: nat, actions: seq<Proposal>, wakes: seq<Wake>)
    | SawFact(step: nat, value: Json)

  function Decided(step: nat, d: Decision): Seen {
    SawDecision(step, d.actions, d.wakes)
  }

  /** The first step at or after i that is not a fact assertion. */
  function SkipFacts(steps: seq<Step>, i: nat): (d: nat)
    requires i <= |steps|
    ensures i <= d <= |steps|
    ensures forall m :: i <= m < d ==> steps[m].FactStep?
    ensures d < |steps| ==> !steps[d].FactStep?
    decreases |steps| - i
  {
    if i < |steps| && steps[i].FactStep? then SkipFacts(steps, i + 1) else i
  }

  /** The assertions from i to d, all of which must hold. */
  function AssertAll(steps: seq<Step>, i: nat, d: nat, p: Projection): Option<seq<Seen>>
    requires i <= d <= |steps| && forall m :: i <= m < d ==> steps[m].FactStep?
  {
    if i == d then Some([])
    else
      var rest, last := AssertAll(steps, i, d - 1, p), AssertFact(steps[d - 1].key, steps[d - 1].expected, p);
      if rest.Some? && last.Some? then Some(rest.value + [SawFact(d - 1, last.value)]) else None
  }

  lemma {:induction false} AssertAllFails(steps: seq<Step>, i: nat, m: nat, d: nat, p: Projection)
    requires i <= m <= d <= |steps| && forall n :: i <= n < d ==> steps[n].FactStep?
    requires AssertAll(steps, i, m, p).None?
    ensures AssertAll(steps, i, d, p).None?
    decreases d - m
  {
    if m < d { AssertAllFails(steps, i, m + 1, d, p); }
  }
}
