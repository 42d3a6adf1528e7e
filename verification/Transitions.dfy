/** Decision validation and the projection of status and wake plan. */
module Transitions {
  import opened Contracts

  // ------------------------------------------------------------- validation

  datatype DecisionPolicy = DecisionPolicy(
    allowedActions: set<string>,
    allowedWakeEvents: set<string>,
    humanWakeActions: set<string>,
    maxActions: nat,
    maxTimerHorizon: nat,
    completion: map<string, Json>)

  /** The wake sources of one turn, as far as the caller checks them. */
  datatype Turn = Turn(
    events: Option<set<Id>>, reviews: Option<set<Id>>, attempts: Option<set<Key>>, timers: Option<set<string>>,
    now: int)

  predicate Satisfied(facts: map<string, Json>, requirements: map<string, Json>) {
    forall k :: k in requirements ==> k in facts && facts[k] == requirements[k]
  }

  predicate IsBasedOn<T(==)>(ids: seq<T>, expected: Option<set<T>>) {
    expected.None? || (set i | 0 <= i < |ids| :: ids[i]) == expected.value
  }

  predicate Within<T(==)>(ids: seq<T>, others: seq<T>) {
    forall i :: 0 <= i < |ids| ==> ids[i] in others
  }

  /** A summary cites nothing outside the turn it was written in. */
  predicate CitesItsTurn(d: Decision) {
    && Within(d.memory.cited.events, d.eventIds) && Within(d.memory.cited.reviews, d.reviewIds)
    && Within(d.memory.cited.attempts, d.attemptIds) && Within(d.memory.cited.timers, d.timerIds)
  }

  /** What the caller knows of the authoritative facts, and whether completion is checked here
      or left to the transaction that applies the decision. */
  datatype Evidence = Evidence(facts: Option<map<string, Json>>, enforceCompletion: bool)

  predicate MayComplete(evidence: Evidence, requirements: map<string, Json>) {
    !evidence.enforceCompletion || requirements == map[] ||
    (evidence.facts.Some? && Satisfied(evidence.facts.value, requirements))
  }

  predicate UniqueLogicalKeys(actions: seq<Proposal>) {
    forall i, j :: 0 <= i < j < |actions| ==> actions[i].logicalKey != actions[j].logicalKey
  }

  predicate WakeFits(w: Wake, policy: DecisionPolicy, now: int) {
    match w
    case EventWake(e) => e in policy.allowedWakeEvents
    case TimerWake(at) => now < at <= now + policy.maxTimerHorizon
    case HumanWake(_) => true
  }

  predicate HasHumanWake(d: Decision) {
    exists i :: 0 <= i < |d.wakes| && d.wakes[i].HumanWake?
  }

  /** The typed contract of an agent decision: waiting needs something to wait for. */
  predicate WellTyped(d: Decision) {
    d.status.DecideWaiting? ==> d.wakes != []
  }

  /** Everything deterministic policy demands of a decision. */
  predicate Valid(d: Decision, policy: DecisionPolicy, turn: Turn, conflicted: set<Payload>, evidence: Evidence) {
    && IsBasedOn(d.eventIds, turn.events) && IsBasedOn(d.reviewIds, turn.reviews)
    && IsBasedOn(d.attemptIds, turn.attempts) && IsBasedOn(d.timerIds, turn.timers)
    && CitesItsTurn(d)
    && |d.actions| <= policy.maxActions
    && (d.status.DecideCompleted? ==> d.actions == [] && MayComplete(evidence, policy.completion))
    && (d.status.DecideActive? ==> d.actions != [] || d.wakes != [])
    && (forall i :: 0 <= i < |d.actions| ==>
          d.actions[i].actionType in policy.allowedActions && PayloadOf(d.actions[i]) !in conflicted)
    && UniqueLogicalKeys(d.actions)
    && (HasHumanWake(d) ==>
          exists i :: 0 <= i < |d.actions| && d.actions[i].actionType in policy.humanWakeActions)
    && (forall i :: 0 <= i < |d.wakes| ==> WakeFits(d.wakes[i], policy, turn.now))
  }

  /** core/policy.py: accept exactly the valid decisions. */
  method ValidateDecision(d: Decision, policy: DecisionPolicy, turn: Turn, conflicted: set<Payload>,
                          evidence: Evidence)
    returns (accepted: bool)
    ensures accepted <==> Valid(d, policy, turn, conflicted, evidence)
  {
    if !IsBasedOn(d.eventIds, turn.events) { return false; }
    if !IsBasedOn(d.reviewIds, turn.reviews) { return false; }
    if !IsBasedOn(d.attemptIds, turn.attempts) { return false; }
    if !IsBasedOn(d.timerIds, turn.timers) { return false; }
    if !Within(d.memory.cited.events, d.eventIds) { return false; }
    if !Within(d.memory.cited.reviews, d.reviewIds) { return false; }
    if !Within(d.memory.cited.attempts, d.attemptIds) { return false; }
    if !Within(d.memory.cited.timers, d.timerIds) { return false; }
    if |d.actions| > policy.maxActions { return false; }
    if d.status.DecideCompleted? && d.actions != [] { return false; }
    if evidence.enforceCompletion && d.status.DecideCompleted? && policy.completion != map[] {
      if evidence.facts.None? || !Satisfied(evidence.facts.value, policy.completion) { return false; }
    }
    if d.status.DecideActive? && d.actions == [] && d.wakes == [] { return false; }
    var actionKeys: set<string> := {};
    for i := 0 to |d.actions|
      invariant actionKeys == set j | 0 <= j < i :: d.actions[j].logicalKey
      invariant UniqueLogicalKeys(d.actions[..i])
      invariant forall j :: 0 <= j < i ==>
        d.actions[j].actionType in policy.allowedActions && PayloadOf(d.actions[j]) !in conflicted
    {
      if d.actions[i].actionType !in policy.allowedActions { return false; }
      if d.actions[i].logicalKey in actionKeys {
        assert exists j :: 0 <= j < i && d.actions[j].logicalKey == d.actions[i].logicalKey;
        return false;
      }
      if PayloadOf(d.actions[i]) in conflicted { return false; }
      assert forall j :: 0 <= j < i ==> d.actions[j].logicalKey in actionKeys;
      actionKeys := actionKeys + {d.actions[i].logicalKey};
    }
    assert d.actions[..|d.actions|] == d.actions;
    if HasHumanWake(d) &&
      forall i :: 0 <= i < |d.actions| ==> d.actions[i].actionType !in policy.humanWakeActions {
      return false;
    }
    for i := 0 to |d.wakes|
      invariant forall j :: 0 <= j < i ==> WakeFits(d.wakes[j], policy, turn.now)
    {
      if !WakeFits(d.wakes[i], policy, turn.now) { return false; }
    }
    accepted := true;
  }

  // ------------------------------------------------------------- projection

  datatype Rejection = UnresolvedActions | RequirementsUnsatisfied | CompletionNotTerminal

  predicate NeedsHuman(s: ActionStatus) {
    s in {PendingApproval, Unknown, Reconciling}
  }

  /** The next process status. `open` holds the open action requests of the process. */
  function NextStatus(d: Decision, open: map<Id, ActionStatus>, mayComplete: bool,
                      facts: map<string, Json>, requirements: map<string, Json>)
    : (r: Result<ProcessStatus, Rejection>)
  {
    if d.status.DecideCompleted? && open != map[] then Err(UnresolvedActions)
    else if exists k :: k in open && NeedsHuman(open[k]) then Ok(Review)
    else if open != map[] then Ok(Active)
    else if d.status.DecideCompleted? then
      if !Satisfied(facts, requirements) then Err(RequirementsUnsatisfied)
      else if !mayComplete then Err(CompletionNotTerminal)
      else Ok(Completed)
    else if d.status.DecideEscalated? || HasHumanWake(d) then Ok(Review)
    else if d.status.DecideWaiting? then Ok(Waiting)
    else Ok(Active)
  }

  function EffectiveWakes(d: Decision, status: ProcessStatus, open: map<Id, ActionStatus>): seq<Wake> {
    if exists k :: k in open && open[k].PendingApproval? then [HumanWake(ApprovalInteraction)]
    else if exists k :: k in open && (open[k].Unknown? || open[k].Reconciling?) then
      [HumanWake(OperatorInteraction)]
    else if open != map[] then []
    else if IsTerminal(status) then []
    else if status.Review? && d.wakes == [] then [HumanWake(OperatorInteraction)]
    else d.wakes
  }

  /** Completion is reached exactly by a completed decision with nothing open, satisfied
      requirements and a definition that allows it. */
  lemma CompletionExactly(d: Decision, open: map<Id, ActionStatus>, mayComplete: bool,
                          facts: map<string, Json>, requirements: map<string, Json>)
    ensures NextStatus(d, open, mayComplete, facts, requirements) == Ok(Completed) <==>
            d.status.DecideCompleted? && open == map[] && Satisfied(facts, requirements) && mayComplete
    ensures NextStatus(d, open, mayComplete, facts, requirements).Ok? ==>
            NextStatus(d, open, mayComplete, facts, requirements).value in {Active, Waiting, Review, Completed}
  {
    assert open == map[] ==> forall k :: k !in open;
  }

  /** A validated decision leaves the process terminal, busy or wakeable, except exactly
      when an active decision proposed actions of which none is open and named no wake. */
  lemma WakeExactly(d: Decision, policy: DecisionPolicy, turn: Turn, conflicted: set<Payload>, evidence: Evidence,
                    open: map<Id, ActionStatus>, mayComplete: bool, facts: map<string, Json>,
                    requirements: map<string, Json>)
    requires WellTyped(d) && Valid(d, policy, turn, conflicted, evidence)
    requires NextStatus(d, open, mayComplete, facts, requirements).Ok?
    ensures var status := NextStatus(d, open, mayComplete, facts, requirements).value;
            (IsTerminal(status) || open != map[] || EffectiveWakes(d, status, open) != []) <==>
            !(d.status.DecideActive? && d.actions != [] && d.wakes == [] && open == map[])
  {
    hide MayComplete, IsBasedOn, CitesItsTurn, WakeFits;
    if open == map[] {
      assert forall k :: k !in open;
      assert d.wakes == [] ==> !HasHumanWake(d);
    }
  }

  ghost predicate Holds(open: map<Id, ActionStatus>, statuses: set<ActionStatus>) {
    exists id :: id in open && open[id] in statuses
  }

  /** The status a decision leads to, in terms of what is open: requests that wait for a person
      come first, other open ones next, and only then the decision itself. */
  lemma StatusExactly(d: Decision, open: map<Id, ActionStatus>, mayComplete: bool, facts: map<string, Json>,
                      requirements: map<string, Json>)
    ensures var r := NextStatus(d, open, mayComplete, facts, requirements);
            && (r.Err? <==>
                  d.status.DecideCompleted? && (open != map[] || !Satisfied(facts, requirements) || !mayComplete))
            && (r == Err(UnresolvedActions) <==> d.status.DecideCompleted? && open != map[])
            && (r == Err(RequirementsUnsatisfied) <==>
                  d.status.DecideCompleted? && open == map[] &&
                  exists k :: k in requirements && (k in facts ==> facts[k] != requirements[k]))
            && (r == Ok(Review) <==>
                  !d.status.DecideCompleted? &&
                  (Holds(open, {PendingApproval, Unknown, Reconciling}) ||
                   (open == map[] && (d.status.DecideEscalated? || HasHumanWake(d)))))
            && (r == Ok(Waiting) <==> open == map[] && d.status.DecideWaiting? && !HasHumanWake(d))
            && (r == Ok(Completed) <==> r.Ok? && d.status.DecideCompleted?)
            && (r.Ok? ==> r.value in {Review, Waiting, Completed, Active})
  {
    if open == map[] { assert forall id :: id !in open; }
  }

  /** The wakes a process is left with: the open requests decide, approvals first, and only with
      nothing open the decision's own, for which a review without any asks an operator. */
  lemma WakesExactly(d: Decision, status: ProcessStatus, open: map<Id, ActionStatus>)
    ensures EffectiveWakes(d, status, open) ==
            if Holds(open, {PendingApproval}) then [HumanWake(ApprovalInteraction)]
            else if Holds(open, {Unknown, Reconciling}) then [HumanWake(OperatorInteraction)]
            else if open != map[] || IsTerminal(status) then []
            else if d.wakes == [] && status.Review? then [HumanWake(OperatorInteraction)]
            else d.wakes
  {
    if open == map[] { assert forall id :: id !in open; }
  }

  // ------------------------------------------------------------- the reasons

  /** The ids are not exactly the expected ones, where the caller says which are. */
  ghost predicate Misses<T(!new)>(ids: seq<T>, expected: Option<set<T>>) {
    expected.Some? && exists x :: !(x in ids <==> x in expected.value)
  }

  ghost predicate Strays<T>(ids: seq<T>, others: seq<T>) {
    exists i :: 0 <= i < |ids| && ids[i] !in others
  }

  /** The decision is not about its turn. */
  ghost predicate OffTopic(d: Decision, turn: Turn) {
    || Misses(d.eventIds, turn.events) || Misses(d.reviewIds, turn.reviews)
    || Misses(d.attemptIds, turn.attempts) || Misses(d.timerIds, turn.timers)
    || Strays(d.memory.cited.events, d.eventIds) || Strays(d.memory.cited.reviews, d.reviewIds)
    || Strays(d.memory.cited.attempts, d.attemptIds) || Strays(d.memory.cited.timers, d.timerIds)
  }

  /** It completes with actions, or although a required fact is missing, different or unknown. */
  ghost predicate CompletesTooEarly(d: Decision, policy: DecisionPolicy, evidence: Evidence) {
    d.status == DecideCompleted &&
    (d.actions != [] ||
     (evidence.enforceCompletion &&
      exists k :: k in policy.completion && Unmet(k, policy.completion[k], evidence.facts)))
  }

  ghost predicate Unmet(key: string, value: Json, facts: Option<map<string, Json>>) {
    facts.None? || key !in facts.value || facts.value[key] != value
  }

  /** Some action is of a type that is not allowed, repeats a conflict, or shares its logical key. */
  ghost predicate ActsWrongly(d: Decision, policy: DecisionPolicy, conflicted: set<Payload>) {
    || |d.actions| > policy.maxActions
    || (exists a :: a in d.actions && a.actionType !in policy.allowedActions)
    || (exists a :: a in d.actions && Payload(a.actionType, a.parameters) in conflicted)
    || (exists i, j :: 0 <= i < |d.actions| && 0 <= j < |d.actions| && i != j &&
                       d.actions[i].logicalKey == d.actions[j].logicalKey)
  }

  /** It names a wake it may not have, or goes on without any. */
  ghost predicate WakesWrongly(d: Decision, policy: DecisionPolicy, now: int) {
    || (d.status == DecideActive && d.actions == [] && d.wakes == [])
    || ((exists w :: w in d.wakes && w.HumanWake?) &&
        forall a :: a in d.actions ==> a.actionType !in policy.humanWakeActions)
    || (exists w :: w in d.wakes && w.EventWake? && w.eventType !in policy.allowedWakeEvents)
    || (exists w :: w in d.wakes && w.TimerWake? && (w.at <= now || w.at - now > policy.maxTimerHorizon))
  }

  lemma BasedExactly<T(!new)>(ids: seq<T>, expected: Option<set<T>>)
    ensures IsBasedOn(ids, expected) <==> !Misses(ids, expected)
  {
    var s := set i | 0 <= i < |ids| :: ids[i];
    assert forall x :: x in s <==> x in ids;
    if expected.Some? && !Misses(ids, expected) { assert s == expected.value; }
  }

  lemma WithinExactly<T>(ids: seq<T>, others: seq<T>)
    ensures Within(ids, others) <==> !Strays(ids, others)
  {}

  lemma CompletionMet(evidence: Evidence, requirements: map<string, Json>)
    ensures MayComplete(evidence, requirements) <==>
            !evidence.enforceCompletion || forall k :: k in requirements ==> !Unmet(k, requirements[k], evidence.facts)
  {
    if requirements != map[] {
      var k :| k in requirements;
      assert evidence.facts.None? ==> Unmet(k, requirements[k], evidence.facts);
    }
  }

  lemma ActionsRight(d: Decision, policy: DecisionPolicy, conflicted: set<Payload>)
    ensures !ActsWrongly(d, policy, conflicted) <==>
            |d.actions| <= policy.maxActions && UniqueLogicalKeys(d.actions) &&
            forall i :: 0 <= i < |d.actions| ==>
              d.actions[i].actionType in policy.allowedActions && PayloadOf(d.actions[i]) !in conflicted
  {
    assert forall a :: a in d.actions <==> exists i :: 0 <= i < |d.actions| && d.actions[i] == a;
  }

  lemma WakesRight(d: Decision, policy: DecisionPolicy, now: int)
    ensures !WakesWrongly(d, policy, now) <==>
            && (d.status.DecideActive? ==> d.actions != [] || d.wakes != [])
            && (HasHumanWake(d) ==>
                  exists i :: 0 <= i < |d.actions| && d.actions[i].actionType in policy.humanWakeActions)
            && (forall i :: 0 <= i < |d.wakes| ==> WakeFits(d.wakes[i], policy, now))
  {
    assert forall w :: w in d.wakes <==> exists i :: 0 <= i < |d.wakes| && d.wakes[i] == w;
    assert forall a :: a in d.actions <==> exists i :: 0 <= i < |d.actions| && d.actions[i] == a;
  }

  /** A decision is rejected exactly if it is off its turn, completes too early, or acts or wakes
      in a way its policy does not allow. */
  lemma RejectedExactly(d: Decision, policy: DecisionPolicy, turn: Turn, conflicted: set<Payload>, evidence: Evidence)
    ensures !Valid(d, policy, turn, conflicted, evidence) <==>
            OffTopic(d, turn) || CompletesTooEarly(d, policy, evidence) || ActsWrongly(d, policy, conflicted) ||
            WakesWrongly(d, policy, turn.now)
  {
    hide IsBasedOn, Within, MayComplete, UniqueLogicalKeys, HasHumanWake, WakeFits, Misses, Strays, Unmet, ActsWrongly,
         WakesWrongly;
    BasedExactly(d.eventIds, turn.events);
    BasedExactly(d.reviewIds, turn.reviews);
    BasedExactly(d.attemptIds, turn.attempts);
    BasedExactly(d.timerIds, turn.timers);
    WithinExactly(d.memory.cited.events, d.eventIds);
    WithinExactly(d.memory.cited.reviews, d.reviewIds);
    WithinExactly(d.memory.cited.attempts, d.attemptIds);
    WithinExactly(d.memory.cited.timers, d.timerIds);
    CompletionMet(evidence, policy.completion);
    ActionsRight(d, policy, conflicted);
    WakesRight(d, policy, turn.now);
  }
}
