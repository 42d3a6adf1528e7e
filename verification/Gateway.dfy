/** Policy classification and persistence of an agent decision's actions. */
module Gateway {
  import opened Contracts
  import opened Store
  import Communications

  /** Circuit breakers as one transaction sees them. */
  datatype Breakers = Breakers(all: bool, capabilities: set<string>, outbound: bool)

  datatype GatewayError =
    | ProcessNotFound | ProcessClosed | ProcessExpired | BreakerOpen | RepeatsConflict
    | ContactBlocked | IdTaken | IdentityUnavailable | TypeChanged | LineageChanged | PayloadChanged

  type Target = (Id, string)

  // --------------------------------------------------------- supersession

  predicate AsksRevision(db: Db, p: Id, review: Id) {
    review in db.reviews && db.reviews[review].process == p && db.reviews[review].kind.RequestRevision? &&
    db.reviews[review].thread in db.actions
  }

  /** The requests whose revision the turn's review commands asked for, with their types. */
  function RevisionTargets(db: Db, p: Id, reviewIds: seq<Id>): seq<Target> {
    if reviewIds == [] then []
    else
      var n := |reviewIds| - 1;
      var rest := RevisionTargets(db, p, reviewIds[..n]);
      if AsksRevision(db, p, reviewIds[n])
      then
        var target := db.reviews[reviewIds[n]].thread;
        rest + [(target, db.actions[target].payload.actionType)]
      else rest
  }

  /** The first unused target of a type. */
  function FirstTarget(targets: seq<Target>, actionType: string, used: set<Id>): (r: Option<Id>)
    ensures r.Some? ==> r.value !in used && (r.value, actionType) in targets
    ensures r.None? ==> forall i :: 0 <= i < |targets| && targets[i].1 == actionType ==> targets[i].0 in used
  {
    if targets == [] then None
    else if targets[0].1 == actionType && targets[0].0 !in used then Some(targets[0].0)
    else FirstTarget(targets[1..], actionType, used)
  }

  /** The targets that the first n actions take. */
  function Assigned(targets: seq<Target>, actions: seq<Proposal>, n: nat): (r: seq<Option<Id>>)
    requires n <= |actions|
    ensures |r| == n
  {
    if n == 0 then []
    else
      var before := Assigned(targets, actions, n - 1);
      before + [FirstTarget(targets, actions[n - 1].actionType, Taken(before))]
  }

  function Taken(chosen: seq<Option<Id>>): set<Id> {
    set i | 0 <= i < |chosen| && chosen[i].Some? :: chosen[i].value
  }

  lemma TakenGrows(chosen: seq<Option<Id>>, next: Option<Id>)
    ensures Taken(chosen + [next]) == Taken(chosen) + if next.Some? then {next.value} else {}
  {
    var grown := chosen + [next];
    forall id | id in Taken(chosen) ensures id in Taken(grown) {
      var i :| 0 <= i < |chosen| && chosen[i].Some? && chosen[i].value == id;
      assert grown[i] == chosen[i];
    }
    assert grown[|chosen|] == next;
  }

  lemma {:induction false} AssignedPrefix(targets: seq<Target>, actions: seq<Proposal>, m: nat, n: nat)
    requires m <= n <= |actions|
    ensures Assigned(targets, actions, n)[..m] == Assigned(targets, actions, m)
  {
    if m < n { AssignedPrefix(targets, actions, m, n - 1); }
  }

  lemma AssignedAt(targets: seq<Target>, actions: seq<Proposal>, i: nat)
    requires i < |actions|
    ensures Assigned(targets, actions, |actions|)[i] ==
            FirstTarget(targets, actions[i].actionType, Taken(Assigned(targets, actions, |actions|)[..i]))
  {
    AssignedPrefix(targets, actions, i + 1, |actions|);
    AssignedPrefix(targets, actions, i, |actions|);
    assert Assigned(targets, actions, |actions|)[i] == Assigned(targets, actions, |actions|)[..i + 1][i];
  }

  /** Supersession is injective, only ever replaces a request of the same type whose revision
      was asked for, and leaves such a request over only when no action of its type is. */
  lemma SupersessionIsAMatching(targets: seq<Target>, actions: seq<Proposal>)
    ensures var r := Assigned(targets, actions, |actions|);
            && (forall i, j :: 0 <= i < j < |r| && r[i].Some? ==> r[i] != r[j])
            && (forall i :: 0 <= i < |r| && r[i].Some? ==> (r[i].value, actions[i].actionType) in targets)
            && (forall i, t | 0 <= i < |r| && 0 <= t < |targets| ::
                  r[i].None? && targets[t].1 == actions[i].actionType ==> targets[t].0 in Taken(r))
  {
    var r := Assigned(targets, actions, |actions|);
    forall i, j | 0 <= i < j < |r| && r[i].Some? ensures r[i] != r[j] {
      AssignedAt(targets, actions, j);
      assert r[..j][i] == r[i];
    }
    forall i | 0 <= i < |r| && r[i].Some? ensures (r[i].value, actions[i].actionType) in targets {
      AssignedAt(targets, actions, i);
    }
    forall i, t | 0 <= i < |r| && 0 <= t < |targets| && r[i].None? && targets[t].1 == actions[i].actionType
      ensures targets[t].0 in Taken(r)
    {
      AssignedAt(targets, actions, i);
      assert targets[t].0 in Taken(r[..i]);
      var k :| 0 <= k < |r[..i]| && r[..i][k].Some? && r[..i][k].value == targets[t].0;
      assert r[k].Some? && r[k].value == targets[t].0;
    }
  }

  // ---------------------------------------------------- reference semantics

  /** The payloads that the turn's action results report as definitively conflicting. */
  function ConflictedPayloads(db: Db, p: Id, attemptIds: seq<Key>): set<Payload> {
    set i | 0 <= i < |attemptIds| && attemptIds[i] in db.attempts && attemptIds[i].process == p &&
            db.attempts[attemptIds[i]].status.Conflict? :: attemptIds[i].payload
  }

  function PermissionOf(d: Definition, actionType: string): Permission {
    if actionType in d.permissions then d.permissions[actionType] else Deny
  }

  function InitialStatus(outcome: Permission): ActionStatus {
    match outcome case Allow => Allowed case Deny => Denied case RequireApproval => PendingApproval
  }

  function NewAction(db: Db, p: Id, turn: Id, proposal: Proposal, supersedes: Option<Id>): Action
    requires p in db.processes
  {
    var outcome := PermissionOf(db.processes[p].definition, proposal.actionType);
    Action(p, turn, proposal.logicalKey, PayloadOf(proposal), outcome, InitialStatus(outcome), supersedes,
           db.clock, if outcome.RequireApproval? then Approval(Awaiting, ThreadOpen, None) else NotNeeded)
  }

  predicate IsOutbound(db: Db, p: Id, proposal: Proposal)
    requires p in db.processes
  {
    proposal.actionType in db.processes[p].definition.comms.outboundTypes
  }

  /** The gates in front of a new request. */
  function Admission(db: Db, p: Id, proposal: Proposal, conflicted: set<Payload>, breakers: Breakers)
    : Option<GatewayError>
    requires p in db.processes
  {
    if PayloadOf(proposal) in conflicted then Some(RepeatsConflict)
    else if proposal.actionType in breakers.capabilities then Some(BreakerOpen)
    else if IsOutbound(db, p, proposal) &&
            !Communications.Allowed(db.processes[p].definition.comms, Inspect(db, p, None), db.clock)
    then Some(ContactBlocked)
    else if IsOutbound(db, p, proposal) && breakers.outbound then Some(BreakerOpen)
    else if proposal.requestId in db.actions then Some(IdTaken)
    else None
  }

  function Inserted(db: Db, p: Id, turn: Id, proposal: Proposal, supersedes: Option<Id>): Db
    requires p in db.processes
  {
    db.(actions := db.actions[proposal.requestId := NewAction(db, p, turn, proposal, supersedes)],
        order := db.order + [proposal.requestId],
        slots := db.slots[(p, turn, proposal.logicalKey) := proposal.requestId])
  }

  /** What a replayed proposal must agree with. */
  function ReplayError(db: Db, existing: Id, proposal: Proposal, supersedes: Option<Id>): Option<GatewayError> {
    if existing !in db.actions then Some(IdentityUnavailable)
    else if db.actions[existing].payload.actionType != proposal.actionType then Some(TypeChanged)
    else if db.actions[existing].supersedes != supersedes then Some(LineageChanged)
    else if db.actions[existing].payload != PayloadOf(proposal) then Some(PayloadChanged)
    else None
  }

  function PersistOne(db: Db, p: Id, turn: Id, proposal: Proposal, supersedes: Option<Id>,
                      conflicted: set<Payload>, breakers: Breakers): Result<Db, GatewayError>
    requires p in db.processes
  {
    var slot := (p, turn, proposal.logicalKey);
    if slot in db.slots then
      var error := ReplayError(db, db.slots[slot], proposal, supersedes);
      if error.Some? then Err(error.value) else Ok(db)
    else
      var error := Admission(db, p, proposal, conflicted, breakers);
      if error.Some? then Err(error.value) else Ok(Inserted(db, p, turn, proposal, supersedes))
  }

  /** The first n proposals of a decision. */
  function PersistUpTo(db: Db, p: Id, turn: Id, actions: seq<Proposal>, n: nat, targets: seq<Target>,
                       conflicted: set<Payload>, breakers: Breakers): (r: Result<Db, GatewayError>)
    requires p in db.processes && n <= |actions|
    ensures r.Ok? ==> r.value.processes == db.processes
  {
    if n == 0 then Ok(db)
    else
      var before := PersistUpTo(db, p, turn, actions, n - 1, targets, conflicted, breakers);
      if before.Err? then before
      else PersistOne(before.value, p, turn, actions[n - 1], Assigned(targets, actions, n)[n - 1],
                      conflicted, breakers)
  }

  function Closed(db: Db, p: Id, breakers: Breakers): Option<GatewayError> {
    if p !in db.processes then Some(ProcessNotFound)
    else if db.processes[p].IsClosed() then Some(ProcessClosed)
    else if Expired(db, p) then Some(ProcessExpired)
    else if breakers.all then Some(BreakerOpen)
    else None
  }

  function Persisted(db: Db, p: Id, turn: Id, d: Decision, breakers: Breakers): Result<Db, GatewayError> {
    var closed := Closed(db, p, breakers);
    if closed.Some? then Err(closed.value)
    else PersistUpTo(db, p, turn, d.actions, |d.actions|, RevisionTargets(db, p, d.reviewIds),
                     ConflictedPayloads(db, p, d.attemptIds), breakers)
  }

  // ------------------------------------------------------------ the service

  /** Persisting a proposal changes nothing or inserts a new, admitted request in a free slot. */
  lemma PersistOneInserts(db: Db, p: Id, turn: Id, proposal: Proposal, supersedes: Option<Id>,
                          conflicted: set<Payload>, breakers: Breakers)
    requires p in db.processes && PersistOne(db, p, turn, proposal, supersedes, conflicted, breakers).Ok?
    ensures var after := PersistOne(db, p, turn, proposal, supersedes, conflicted, breakers).value;
            if (p, turn, proposal.logicalKey) in db.slots then after == db
            else
              && after == Inserted(db, p, turn, proposal, supersedes)
              && proposal.requestId !in db.actions
              && (IsOutbound(db, p, proposal) ==>
                    Communications.Allowed(db.processes[p].definition.comms, Inspect(db, p, None), db.clock))
  {
    hide Inserted, ReplayError, Communications.Allowed, Inspect;
  }

  lemma UpToStep(db: Db, before: Db, p: Id, turn: Id, actions: seq<Proposal>, i: nat, targets: seq<Target>,
                 conflicted: set<Payload>, breakers: Breakers)
    requires p in db.processes && i < |actions|
    requires PersistUpTo(db, p, turn, actions, i, targets, conflicted, breakers) == Ok(before)
    ensures var chosen := Assigned(targets, actions, i);
            var next := FirstTarget(targets, actions[i].actionType, Taken(chosen));
            && Taken(Assigned(targets, actions, i + 1)) == Taken(chosen) + (if next.Some? then {next.value} else {})
            && PersistUpTo(db, p, turn, actions, i + 1, targets, conflicted, breakers) ==
               PersistOne(before, p, turn, actions[i], next, conflicted, breakers)
  {
    TakenGrows(Assigned(targets, actions, i), FirstTarget(targets, actions[i].actionType, Taken(Assigned(targets, actions, i))));
  }

  lemma {:induction false} FailureIsFinal(db: Db, p: Id, turn: Id, actions: seq<Proposal>, m: nat, n: nat,
                                          targets: seq<Target>, conflicted: set<Payload>, breakers: Breakers)
    requires p in db.processes && m <= n <= |actions|
    requires PersistUpTo(db, p, turn, actions, m, targets, conflicted, breakers).Err?
    ensures PersistUpTo(db, p, turn, actions, n, targets, conflicted, breakers) ==
            PersistUpTo(db, p, turn, actions, m, targets, conflicted, breakers)
  {
    hide PersistOne;
    if m < n { FailureIsFinal(db, p, turn, actions, m, n - 1, targets, conflicted, breakers); }
  }

  // ----------------------------------------------------------------- replay

  /** The decision's actions are all stored under their logical keys. */
  ghost predicate Stored(db: Db, p: Id, turn: Id, actions: seq<Proposal>) {
    forall i :: 0 <= i < |actions| ==> (p, turn, actions[i].logicalKey) in db.slots
  }

  lemma PersistOneStores(db: Db, p: Id, turn: Id, proposal: Proposal, supersedes: Option<Id>,
                         conflicted: set<Payload>, breakers: Breakers)
    requires p in db.processes
    ensures var r := PersistOne(db, p, turn, proposal, supersedes, conflicted, breakers);
            r.Ok? ==> (p, turn, proposal.logicalKey) in r.value.slots && db.slots.Keys <= r.value.slots.Keys
  {
    hide Admission, ReplayError, NewAction;
  }

  lemma {:induction false} UpToStores(db: Db, p: Id, turn: Id, actions: seq<Proposal>, n: nat, targets: seq<Target>,
                                      conflicted: set<Payload>, breakers: Breakers)
    requires p in db.processes && n <= |actions|
    requires PersistUpTo(db, p, turn, actions, n, targets, conflicted, breakers).Ok?
    ensures var after := PersistUpTo(db, p, turn, actions, n, targets, conflicted, breakers).value;
            Stored(after, p, turn, actions[..n]) && db.slots.Keys <= after.slots.Keys
  {
    hide PersistOne;
    if n > 0 {
      UpToStores(db, p, turn, actions, n - 1, targets, conflicted, breakers);
      var mid := PersistUpTo(db, p, turn, actions, n - 1, targets, conflicted, breakers).value;
      var after := PersistUpTo(db, p, turn, actions, n, targets, conflicted, breakers).value;
      PersistOneStores(mid, p, turn, actions[n - 1], Assigned(targets, actions, n)[n - 1], conflicted, breakers);
      forall i | 0 <= i < n ensures (p, turn, actions[i].logicalKey) in after.slots {
        if i < n - 1 { assert actions[..n - 1][i] == actions[i]; }
      }
    }
  }

  /** An accepted decision stores every one of its actions. */
  lemma PersistedIsStored(db: Db, p: Id, turn: Id, d: Decision, breakers: Breakers)
    requires Persisted(db, p, turn, d, breakers).Ok?
    ensures Stored(Persisted(db, p, turn, d, breakers).value, p, turn, d.actions)
  {
    UpToStores(db, p, turn, d.actions, |d.actions|, RevisionTargets(db, p, d.reviewIds),
               ConflictedPayloads(db, p, d.attemptIds), breakers);
    assert d.actions[..|d.actions|] == d.actions;
  }

  /** A decision whose actions are all stored never adds a row, at any later time and under
      any breakers and review state: it is accepted without change or refused. */
  lemma {:induction false} ReplayAddsNothing(db: Db, p: Id, turn: Id, actions: seq<Proposal>, n: nat,
                                             targets: seq<Target>, conflicted: set<Payload>, breakers: Breakers)
    requires p in db.processes && n <= |actions| && Stored(db, p, turn, actions)
    ensures var r := PersistUpTo(db, p, turn, actions, n, targets, conflicted, breakers);
            r.Ok? ==> r.value == db
  {
    hide Admission, ReplayError, Inserted;
    if n > 0 { ReplayAddsNothing(db, p, turn, actions, n - 1, targets, conflicted, breakers); }
  }

  // --------------------------------------------------------- what it answers

  /** An action result of the turn reports that the provider refuses this payload for good. */
  ghost predicate ReportsConflict(db: Db, p: Id, d: Decision, payload: Payload) {
    exists i :: 0 <= i < |d.attemptIds| && IsConflictOf(db, p, d.attemptIds[i], payload)
  }

  ghost predicate IsConflictOf(db: Db, p: Id, k: Key, payload: Payload) {
    k in db.attempts && k.process == p && k.payload == payload && db.attempts[k].status == ActionStatus.Conflict
  }

  lemma ConflictsAreReported(db: Db, p: Id, d: Decision, payload: Payload)
    ensures payload in ConflictedPayloads(db, p, d.attemptIds) <==> ReportsConflict(db, p, d, payload)
  {}

  /** A review command of the turn asked for a revision of the request. */
  ghost predicate AskedFor(db: Db, p: Id, d: Decision, target: Id, actionType: string) {
    && target in db.actions && db.actions[target].payload.actionType == actionType
    && exists i :: 0 <= i < |d.reviewIds| && AsksFor(db, p, d.reviewIds[i], target)
  }

  ghost predicate AsksFor(db: Db, p: Id, review: Id, target: Id) {
    && review in db.reviews && db.reviews[review].process == p && db.reviews[review].thread == target
    && db.reviews[review].kind == ReviewKind.RequestRevision
  }

  lemma {:induction false} TargetsAreAskedFor(db: Db, p: Id, reviewIds: seq<Id>, target: Id, actionType: string)
    ensures (target, actionType) in RevisionTargets(db, p, reviewIds) <==>
            target in db.actions && db.actions[target].payload.actionType == actionType &&
            exists i :: 0 <= i < |reviewIds| && AsksFor(db, p, reviewIds[i], target)
  {
    if reviewIds != [] {
      var n := |reviewIds| - 1;
      TargetsAreAskedFor(db, p, reviewIds[..n], target, actionType);
      if exists i :: 0 <= i < n && AsksFor(db, p, reviewIds[i], target) {
        var i :| 0 <= i < n && AsksFor(db, p, reviewIds[i], target);
        assert reviewIds[..n][i] == reviewIds[i];
      }
    }
  }

  /** What a decision's refusal says before any of its actions is looked at. */
  ghost predicate DoorClosed(db: Db, p: Id, breakers: Breakers, e: GatewayError) {
    match e
    case ProcessNotFound => p !in db.processes
    case ProcessClosed => p in db.processes && db.processes[p].status in {Paused, Completed, Cancelled, ProcessFailed}
    case ProcessExpired =>
      p in db.processes && db.clock >= db.processes[p].createdAt + db.processes[p].definition.comms.lifetime
    case BreakerOpen => breakers.all
    case _ => false
  }

  lemma DoorAnswers(db: Db, p: Id, breakers: Breakers)
    ensures match Closed(db, p, breakers)
            case Some(e) => DoorClosed(db, p, breakers, e)
            case None => forall e :: !DoorClosed(db, p, breakers, e)
  {}

  /** What the refusal of one proposal says. `before` is the database that the decision found,
      `now` the one with its earlier actions. */
  ghost predicate ProposalRefused(before: Db, now: Db, p: Id, turn: Id, d: Decision, proposal: Proposal,
                                  supersedes: Option<Id>, breakers: Breakers, e: GatewayError)
    requires p in now.processes
  {
    var slot := (p, turn, proposal.logicalKey);
    if slot in now.slots then
      var id := now.slots[slot];
      match e
      case IdentityUnavailable => id !in now.actions
      case TypeChanged => id in now.actions && now.actions[id].payload.actionType != proposal.actionType
      case LineageChanged => id in now.actions && now.actions[id].supersedes != supersedes
      case PayloadChanged => id in now.actions && now.actions[id].payload != Payload(proposal.actionType, proposal.parameters)
      case _ => false
    else
      var outbound := proposal.actionType in now.processes[p].definition.comms.outboundTypes;
      match e
      case RepeatsConflict => ReportsConflict(before, p, d, Payload(proposal.actionType, proposal.parameters))
      case BreakerOpen => proposal.actionType in breakers.capabilities || (outbound && breakers.outbound)
      case ContactBlocked =>
        outbound && !Communications.Allowed(now.processes[p].definition.comms, Inspect(now, p, None), now.clock)
      case IdTaken => proposal.requestId in now.actions
      case _ => false
  }

  /** A stored request as its proposal and the definition of its process make it. */
  ghost predicate StoredFor(db: Db, p: Id, turn: Id, proposal: Proposal, supersedes: Option<Id>, a: Action)
    requires p in db.processes
  {
    var permissions := db.processes[p].definition.permissions;
    && a.process == p && a.turn == turn && a.logicalKey == proposal.logicalKey
    && a.payload == Payload(proposal.actionType, proposal.parameters) && a.supersedes == supersedes
    && a.createdAt == db.clock
    && (a.outcome.Deny? <==> proposal.actionType !in permissions || permissions[proposal.actionType].Deny?)
    && (proposal.actionType in permissions ==> a.outcome == permissions[proposal.actionType])
    && (a.outcome.Allow? ==> a.status.Allowed? && a.approval == NotNeeded)
    && (a.outcome.Deny? ==> a.status.Denied? && a.approval == NotNeeded)
    && (a.outcome.RequireApproval? ==> a.status.PendingApproval? && a.approval == Approval(Awaiting, ThreadOpen, None))
  }

  /** One proposal is refused exactly for a reason that its refusal names. Under a known logical
      key it changes nothing, and otherwise it adds its one request. */
  lemma ProposalAnswers(before: Db, now: Db, p: Id, turn: Id, d: Decision, proposal: Proposal, supersedes: Option<Id>,
                        breakers: Breakers)
    requires p in now.processes
    ensures var slot := (p, turn, proposal.logicalKey);
            match PersistOne(now, p, turn, proposal, supersedes, ConflictedPayloads(before, p, d.attemptIds), breakers)
            case Err(e) => ProposalRefused(before, now, p, turn, d, proposal, supersedes, breakers, e)
            case Ok(after) =>
              && (forall e :: !ProposalRefused(before, now, p, turn, d, proposal, supersedes, breakers, e))
              && if slot in now.slots then after == now
                 else
                   && proposal.requestId in after.actions
                   && after == now.(actions := now.actions[proposal.requestId := after.actions[proposal.requestId]],
                                    order := now.order + [proposal.requestId],
                                    slots := now.slots[slot := proposal.requestId])
                   && StoredFor(now, p, turn, proposal, supersedes, after.actions[proposal.requestId])
  {
    hide Communications.Allowed, Inspect, ConflictedPayloads, ReportsConflict;
    ConflictsAreReported(before, p, d, PayloadOf(proposal));
  }

  lemma {:induction false} UpToFails(db: Db, p: Id, turn: Id, actions: seq<Proposal>, n: nat, targets: seq<Target>,
                                     conflicted: set<Payload>, breakers: Breakers) returns (i: nat)
    requires p in db.processes && n <= |actions|
    requires PersistUpTo(db, p, turn, actions, n, targets, conflicted, breakers).Err?
    ensures i < n && PersistUpTo(db, p, turn, actions, i, targets, conflicted, breakers).Ok?
    ensures PersistUpTo(db, p, turn, actions, n, targets, conflicted, breakers) ==
            PersistOne(PersistUpTo(db, p, turn, actions, i, targets, conflicted, breakers).value, p, turn, actions[i],
                       Assigned(targets, actions, i + 1)[i], conflicted, breakers)
  {
    hide PersistOne;
    if PersistUpTo(db, p, turn, actions, n - 1, targets, conflicted, breakers).Err? {
      i := UpToFails(db, p, turn, actions, n - 1, targets, conflicted, breakers);
    } else {
      i := n - 1;
    }
  }

  /** Action i of a decision is refused after the earlier ones were taken. */
  ghost predicate RefusedAt(db: Db, p: Id, turn: Id, d: Decision, breakers: Breakers, i: nat, e: GatewayError)
    requires p in db.processes
  {
    i < |d.actions| &&
    var targets, conflicted := RevisionTargets(db, p, d.reviewIds), ConflictedPayloads(db, p, d.attemptIds);
    var earlier := PersistUpTo(db, p, turn, d.actions, i, targets, conflicted, breakers);
    earlier.Ok? &&
    ProposalRefused(db, earlier.value, p, turn, d, d.actions[i], Assigned(targets, d.actions, i + 1)[i], breakers, e)
  }

  /** A refused decision names a reason of its own or of its first action that has one. */
  lemma RefusedDecisionAnswers(db: Db, p: Id, turn: Id, d: Decision, breakers: Breakers)
    requires Persisted(db, p, turn, d, breakers).Err?
    ensures var e := Persisted(db, p, turn, d, breakers).error;
            DoorClosed(db, p, breakers, e) || (p in db.processes && exists i: nat :: RefusedAt(db, p, turn, d, breakers, i, e))
  {
    hide PersistUpTo, PersistOne, RevisionTargets, ConflictedPayloads, ProposalRefused;
    DoorAnswers(db, p, breakers);
    if Closed(db, p, breakers).None? {
      var targets, conflicted := RevisionTargets(db, p, d.reviewIds), ConflictedPayloads(db, p, d.attemptIds);
      var i := UpToFails(db, p, turn, d.actions, |d.actions|, targets, conflicted, breakers);
      var earlier := PersistUpTo(db, p, turn, d.actions, i, targets, conflicted, breakers).value;
      ProposalAnswers(db, earlier, p, turn, d, d.actions[i], Assigned(targets, d.actions, i + 1)[i], breakers);
      assert RefusedAt(db, p, turn, d, breakers, i, Persisted(db, p, turn, d, breakers).error);
    }
  }

  /** What a request that a decision added is allowed to be: not one whose payload just met a
      definitive conflict, and in place of another request only if the turn asked to revise that
      one and it is of the same type. */
  ghost predicate AddedRightly(db: Db, p: Id, d: Decision, a: Action) {
    && !ReportsConflict(db, p, d, a.payload)
    && (a.supersedes.Some? ==> AskedFor(db, p, d, a.supersedes.value, a.payload.actionType))
  }

  lemma {:induction false} UpToAddsRightly(db: Db, p: Id, turn: Id, d: Decision, n: nat, breakers: Breakers)
    requires p in db.processes && n <= |d.actions|
    ensures var r := PersistUpTo(db, p, turn, d.actions, n, RevisionTargets(db, p, d.reviewIds),
                                 ConflictedPayloads(db, p, d.attemptIds), breakers);
            r.Ok? ==>
              forall id :: id in r.value.actions && id !in db.actions ==> AddedRightly(db, p, d, r.value.actions[id])
  {
    hide PersistOne, RevisionTargets, ConflictedPayloads, AddedRightly;
    if n > 0 {
      UpToAddsRightly(db, p, turn, d, n - 1, breakers);
      var targets, conflicted := RevisionTargets(db, p, d.reviewIds), ConflictedPayloads(db, p, d.attemptIds);
      var earlier := PersistUpTo(db, p, turn, d.actions, n - 1, targets, conflicted, breakers);
      if PersistUpTo(db, p, turn, d.actions, n, targets, conflicted, breakers).Ok? {
        OneAddsRightly(db, earlier.value, p, turn, d, n - 1, breakers);
      }
    }
  }

  lemma OneAddsRightly(db: Db, now: Db, p: Id, turn: Id, d: Decision, i: nat, breakers: Breakers)
    requires p in now.processes && i < |d.actions|
    requires var targets := RevisionTargets(db, p, d.reviewIds);
             PersistOne(now, p, turn, d.actions[i], Assigned(targets, d.actions, i + 1)[i],
                        ConflictedPayloads(db, p, d.attemptIds), breakers).Ok?
    ensures var targets := RevisionTargets(db, p, d.reviewIds);
            var after := PersistOne(now, p, turn, d.actions[i], Assigned(targets, d.actions, i + 1)[i],
                                    ConflictedPayloads(db, p, d.attemptIds), breakers).value;
            forall id :: id in after.actions ==>
              (id in now.actions && after.actions[id] == now.actions[id]) || AddedRightly(db, p, d, after.actions[id])
  {
    hide PersistOne, RevisionTargets, ConflictedPayloads, ReportsConflict, AskedFor;
    var targets := RevisionTargets(db, p, d.reviewIds);
    var supersedes := Assigned(targets, d.actions, i + 1)[i];
    ProposalAnswers(db, now, p, turn, d, d.actions[i], supersedes, breakers);
    if supersedes.Some? { TakenIsAskedFor(db, p, d, i); }
    assert !ProposalRefused(db, now, p, turn, d, d.actions[i], supersedes, breakers, RepeatsConflict);
  }

  lemma TakenIsAskedFor(db: Db, p: Id, d: Decision, i: nat)
    requires i < |d.actions|
    ensures var taken := Assigned(RevisionTargets(db, p, d.reviewIds), d.actions, i + 1)[i];
            taken.Some? ==> AskedFor(db, p, d, taken.value, d.actions[i].actionType)
  {
    hide RevisionTargets;
    var targets := RevisionTargets(db, p, d.reviewIds);
    var taken := Assigned(targets, d.actions, i + 1)[i];
    assert taken == FirstTarget(targets, d.actions[i].actionType, Taken(Assigned(targets, d.actions, i)));
    if taken.Some? { TargetsAreAskedFor(db, p, d.reviewIds, taken.value, d.actions[i].actionType); }
  }

  /** In an accepted decision no new request has the payload of an attempt that the decision is
      based on and that ended in conflict, and none replaces a request that the turn did not ask to
      revise. The decision met an open door, too. */
  lemma AcceptedDecisionAnswers(db: Db, p: Id, turn: Id, d: Decision, breakers: Breakers)
    requires Persisted(db, p, turn, d, breakers).Ok?
    ensures forall e :: !DoorClosed(db, p, breakers, e)
    ensures var after := Persisted(db, p, turn, d, breakers).value;
            forall id :: id in after.actions && id !in db.actions ==> AddedRightly(db, p, d, after.actions[id])
  {
    hide PersistUpTo, RevisionTargets, ConflictedPayloads, AddedRightly;
    DoorAnswers(db, p, breakers);
    UpToAddsRightly(db, p, turn, d, |d.actions|, breakers);
  }
}
