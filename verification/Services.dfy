/** The services, as the transactions of one tenant's database. */
module Services {
  import opened Contracts
  import opened Knowledge
  import opened Store
  import opened Gateway
  import opened Reviews
  import opened Processes
  import opened Ingestion
  import opened Execution
  import Communications
  import Frames
  import Outbox
  import Transitions

  class Database {
    var clock: int
    var active: bool
    var deployment: Deployment
    var processes: map<Id, Process>
    var actions: map<Id, Action>
    var order: seq<Id>
    var slots: map<(Id, Id, string), Id>
    var attempts: map<Key, Attempt>
    var approvals: map<Id, ApprovalDecision>
    var reviews: map<Id, ReviewMessage>
    var resolutions: map<Key, Resolution>
    var interventions: map<(Id, Id), bool>
    var controls: map<Id, Control>
    var inbox: map<Id, InboxRow>
    var arrivals: seq<Id>
    var sources: map<(string, string), Id>
    var owners: map<Reference, Id>
    var commands: map<Id, QuarantineCommand>
    var outbox: map<Outbox.DedupKey, Outbox.Message>

    function View(): Db
      reads this
    {
      Db(clock, active, deployment, processes, actions, order, slots, attempts, approvals, reviews,
         resolutions, interventions, controls, inbox, arrivals, sources, owners, commands, outbox)
    }

    constructor (clock: int, deployment: Deployment)
      ensures View() == NewTenant(clock, deployment)
    {
      this.clock, active, this.deployment := clock, true, deployment;
      processes, actions, order, slots, attempts := map[], map[], [], map[], map[];
      approvals, reviews, resolutions, interventions := map[], map[], map[], map[];
      controls, inbox, arrivals, sources := map[], map[], [], map[];
      owners, commands, outbox := map[], map[], map[];
    }

    /** INSERT ... ON CONFLICT DO NOTHING on the outbox. */
    method Enqueue(key: Outbox.DedupKey, p: Id, cause: Option<Id>)
      modifies this`outbox
      ensures View() == old(View()).(outbox := Enqueued(old(View()), key, p, cause))
    {
      if key !in outbox {
        outbox := outbox[key := Outbox.Fresh(p, cause, clock)];
      }
    }

    method InsertEvent(row: InboxRow)
      modifies `inbox, `arrivals, `sources
      ensures View() == Arrived(old(View()), row)
    {
      inbox := inbox[row.event.id := row];
      arrivals := arrivals + [row.event.id];
      sources := sources[(row.event.source, row.event.sourceId) := row.event.id];
    }

    // ---- actions/gateway.py
    method EnforceContactPolicy(p: Id) returns (allowed: bool)
      requires p in processes
      ensures allowed <==>
              Communications.Allowed(processes[p].definition.comms, Inspect(View(), p, None), clock)
    {
      var blocks := Communications.EvaluateCommunicationSafety(
        processes[p].definition.comms, Inspect(View(), p, None), clock);
      allowed := blocks == [];
    }

    method InsertAction(p: Id, turn: Id, proposal: Proposal, supersedes: Option<Id>)
      requires p in processes
      modifies `actions, `order, `slots
      ensures View() == Inserted(old(View()), p, turn, proposal, supersedes)
    {
      hide NewAction;
      actions := actions[proposal.requestId := NewAction(View(), p, turn, proposal, supersedes)];
      order := order + [proposal.requestId];
      slots := slots[(p, turn, proposal.logicalKey) := proposal.requestId];
    }

    method PersistAction(p: Id, turn: Id, proposal: Proposal, supersedes: Option<Id>,
                         conflicted: set<Payload>, breakers: Breakers)
      returns (error: Option<GatewayError>)
      requires p in processes
      modifies `actions, `order, `slots
      ensures PersistOne(old(View()), p, turn, proposal, supersedes, conflicted, breakers) ==
              if error.None? then Ok(View()) else Err(error.value)
      ensures error.Some? ==> View() == old(View())
    {
      hide ReplayError, Inserted, Inspect, Communications.Allowed;
      var slot := (p, turn, proposal.logicalKey);
      if slot in slots {
        return ReplayError(View(), slots[slot], proposal, supersedes);
      }
      if PayloadOf(proposal) in conflicted { return Some(RepeatsConflict); }
      if proposal.actionType in breakers.capabilities { return Some(BreakerOpen); }
      if IsOutbound(View(), p, proposal) {
        var allowed := EnforceContactPolicy(p);
        if !allowed { return Some(ContactBlocked); }
        if breakers.outbound { return Some(BreakerOpen); }
      }
      if proposal.requestId in actions { return Some(GatewayError.IdTaken); }
      InsertAction(p, turn, proposal, supersedes);
      error := None;
    }

    /** One round of the loop: choose a target for the proposal and persist it. */
    method PersistNext(ghost start: Db, p: Id, turn: Id, proposals: seq<Proposal>, i: nat,
                       targets: seq<Target>, usedTargets: set<Id>, conflicted: set<Payload>, breakers: Breakers)
      returns (error: Option<GatewayError>, nowUsed: set<Id>)
      requires i < |proposals| && p in start.processes && p in processes
      requires usedTargets == Taken(Assigned(targets, proposals, i))
      requires PersistUpTo(start, p, turn, proposals, i, targets, conflicted, breakers) == Ok(View())
      modifies `actions, `order, `slots
      ensures nowUsed == Taken(Assigned(targets, proposals, i + 1))
      ensures PersistUpTo(start, p, turn, proposals, i + 1, targets, conflicted, breakers) ==
              if error.None? then Ok(View()) else Err(error.value)
    {
      var supersedes := FirstTarget(targets, proposals[i].actionType, usedTargets);
      UpToStep(start, View(), p, turn, proposals, i, targets, conflicted, breakers);
      nowUsed := if supersedes.Some? then usedTargets + {supersedes.value} else usedTargets;
      error := PersistAction(p, turn, proposals[i], supersedes, conflicted, breakers);
    }

    /** The loop over a decision's actions; each revision target is used at most once. */
    method PersistActions(p: Id, turn: Id, proposals: seq<Proposal>, targets: seq<Target>,
                          conflicted: set<Payload>, breakers: Breakers)
      returns (error: Option<GatewayError>)
      requires p in processes
      modifies `actions, `order, `slots
      ensures PersistUpTo(old(View()), p, turn, proposals, |proposals|, targets, conflicted, breakers) ==
              if error.None? then Ok(View()) else Err(error.value)
    {
      hide PersistOne, Assigned;
      ghost var start := View();
      var usedTargets: set<Id> := {};
      for i := 0 to |proposals|
        invariant usedTargets == Taken(Assigned(targets, proposals, i))
        invariant PersistUpTo(start, p, turn, proposals, i, targets, conflicted, breakers) == Ok(View())
      {
        error, usedTargets := PersistNext(
          start, p, turn, proposals, i, targets, usedTargets, conflicted, breakers);
        if error.Some? {
          FailureIsFinal(start, p, turn, proposals, i + 1, |proposals|, targets, conflicted, breakers);
          return;
        }
      }
      error := None;
    }

    /** actions/gateway.py persist_decision: all actions of a decision or none. */
    method PersistDecision(p: Id, turn: Id, d: Decision, breakers: Breakers)
      returns (error: Option<GatewayError>)
      modifies `actions, `order, `slots
      ensures Persisted(old(View()), p, turn, d, breakers) ==
              if error.None? then Ok(View()) else Err(error.value)
      ensures error.Some? ==> View() == old(View())
    {
      hide PersistUpTo, RevisionTargets, ConflictedPayloads, Expired;
      error := Gateway.Closed(View(), p, breakers);
      if error.Some? { return; }
      var targets := RevisionTargets(View(), p, d.reviewIds);
      var conflicted := ConflictedPayloads(View(), p, d.attemptIds);
      var savedActions, savedOrder, savedSlots := actions, order, slots;
      error := PersistActions(p, turn, d.actions, targets, conflicted, breakers);
      if error.Some? {
        actions, order, slots := savedActions, savedOrder, savedSlots;
      }
    }

    // ---- reviews/service.py and actions/reconciliation.py
    /** Assign approval, request and thread statuses and add the decision and message rows. */
    method StoreReview(c: ReviewCommand)
      requires c.thread in actions && actions[c.thread].approval.Approval?
      modifies `actions, `approvals, `reviews
      ensures View() == Recorded(old(View()), c)
    {
      var request := actions[c.thread];
      var approval := request.approval;
      match c.kind {
        case Approve =>
          approval := approval.(status := Granted, thread := ThreadApproved);
          request := request.(status := Approved);
        case Reject =>
          approval := approval.(status := Refused, thread := ThreadRejected);
          request := request.(status := Rejected);
        case RequestRevision =>
          approval := approval.(status := Replaced, thread := RevisionRequested);
          request := request.(status := Superseded);
        case Comment =>
      }
      request := request.(approval := approval);
      assert request == Reviewed(actions[c.thread], c.kind);
      if c.kind.Approve? || c.kind.Reject? {
        approvals := approvals[c.id := ApprovalDecision(
          c.thread, c.kind.Approve?, request.payload, c.actor, c.message)];
      }
      actions := actions[c.thread := request];
      reviews := reviews[c.id := MessageOf(c)];
    }

    /** reviews/service.py apply. */
    method ApplyReview(c: ReviewCommand) returns (error: Option<ReviewError>)
      modifies `actions, `approvals, `reviews, `outbox
      ensures AppliedReview(old(View()), c) == if error.None? then Ok(View()) else Err(error.value)
      ensures error.Some? ==> View() == old(View())
    {
      hide SameReview, Recorded;
      error := TargetError(View(), c);
      if error.Some? { return; }
      if c.id in reviews {
        return if SameReview(View(), c) then None else Some(ReviewError.CommandReused);
      }
      error := PendingError(View(), c);
      if error.Some? { return; }
      StoreReview(c);
      Enqueue(Outbox.ReviewKey(c.id), c.process, None);
    }

    /** Settle the attempt and its request and keep the operator's evidence. */
    method StoreResolution(c: ResolveCommand)
      requires c.attempt in attempts && c.attempt.request in actions
      modifies `attempts, `actions, `resolutions
      ensures View() == Settled(old(View()), c)
    {
      var attempt, request := attempts[c.attempt], actions[c.attempt.request];
      resolutions := resolutions[c.attempt := ResolutionOf(c)];
      var facts := attempt.Facts();
      if c.reference.Some? {
        attempt := attempt.(effect := Some(Accepted(c.reference.value, facts)));
      }
      attempt := attempt.(status := ResolvedStatus(c.succeeded));
      request := request.(status := ResolvedStatus(c.succeeded));
      attempts := attempts[c.attempt := attempt];
      actions := actions[c.attempt.request := request];
    }

    /** actions/reconciliation.py resolve_unknown. */
    method ResolveUnknown(c: ResolveCommand) returns (error: Option<ResolveError>)
      modifies `attempts, `actions, `resolutions, `outbox
      ensures Resolved(old(View()), c) == if error.None? then Ok(View()) else Err(error.value)
      ensures error.Some? ==> View() == old(View())
    {
      hide Settled;
      error := ResolutionError(View(), c);
      if error.Some? || c.attempt in resolutions { return; }
      StoreResolution(c);
      Enqueue(Outbox.ResolutionKey(c.id), c.process, None);
    }

    // ---- processes/state.py and processes/control.py
    /** processes/state.py apply_decision. */
    method ApplyDecision(p: Id, turn: Id, d: Decision, limits: Limits)
      returns (error: Option<StateError>)
      modifies `processes
      ensures Decided(old(View()), p, turn, d, limits) == if error.None? then Ok(View()) else Err(error.value)
      ensures error.Some? ==> View() == old(View())
    {
      if p !in processes { return Some(StateError.ProcessNotFound); }
      var process := processes[p];
      error := StateRefusal(process, View(), p, turn, d);
      if error.Some? || UsesTurn(process.history, turn) { return; }
      var facts := PersistenceFold(
        process.facts, EventSources(View(), p, d.eventIds), AttemptSources(View(), p, d.attemptIds));
      if !limits.facts(facts) { return Some(OverLimit); }
      var open := OpenActions(actions, p);
      var transition := Transitions.NextStatus(
        d, open, process.definition.mayComplete, facts.authoritative, process.definition.requirements);
      if transition.Err? { return Some(TransitionRejected); }
      if !limits.memory(d.memory) { return Some(OverLimit); }
      var wakes := Transitions.EffectiveWakes(d, transition.value, open);
      if d.memory.summary.Some? { process := process.(summary := d.memory.summary); }
      process := process.(commitments := d.memory.commitments, wakes := wakes, facts := facts);
      process := process.(status := transition.value, stateVersion := process.stateVersion + 1);
      var revision := Revision(turn, d.id, process.stateVersion, process.status, process.facts, process.summary,
                               process.commitments, process.wakes);
      processes := processes[p := process.(history := process.history + [revision])];
    }

    /** processes/control.py record_intervention. */
    method RecordIntervention(p: Id, turn: Id) returns (error: Option<ControlError>)
      modifies `interventions, `processes
      ensures Intervened(old(View()), p, turn) == if error.None? then Ok(View()) else Err(error.value)
      ensures error.Some? ==> View() == old(View())
    {
      if (p, turn) in interventions { return None; }
      if p !in processes { return Some(NoProcess); }
      interventions := interventions[(p, turn) := true];
      var process := processes[p];
      if !process.IsClosed() {
        processes := processes[p := process.(status := Review, wakes := AskOperator)];
      }
      error := None;
    }

    method EnqueueManualWake(c: ControlCommand, eventId: Id)
      modifies `inbox, `arrivals, `sources, `outbox
      ensures View() == Woken(old(View()), c, eventId)
    {
      hide Arrived;
      InsertEvent(InboxRow(WakeEvent(c, eventId, clock), Some(c.process), Matched, OperatorWake));
      Enqueue(Outbox.ControlKey(c.id), c.process, Some(eventId));
    }

    /** Change the process and keep the command; a retry resolves its intervention. */
    method StoreControl(c: ControlCommand)
      requires c.process in processes && (c.kind.Retry? ==> c.intervention.Some?)
      modifies `processes, `controls, `interventions
      ensures View() == Obeyed(old(View()), c)
    {
      var process := processes[c.process];
      match c.kind {
        case Retry => process := process.(status := Active, wakes := []);
        case Takeover => process := process.(status := Paused, wakes := AskOperator);
        case Resume => process := process.(status := Active, wakes := []);
        case WakeNow =>
      }
      assert process == Controlled(processes[c.process], c.kind);
      processes := processes[c.process := process];
      controls := controls[c.id := ControlOf(c)];
      if c.kind.Retry? {
        interventions := interventions[(c.process, c.intervention.value) := false];
      }
    }

    /** processes/control.py apply_control. */
    method ApplyControl(c: ControlCommand, eventId: Id) returns (error: Option<ControlError>)
      modifies `processes, `controls, `interventions, `inbox, `arrivals, `sources, `outbox
      ensures Commanded(old(View()), c, eventId) == if error.None? then Ok(View()) else Err(error.value)
      ensures error.Some? ==> View() == old(View())
    {
      hide Obeyed, Woken, WakeClashes, IsOpenIntervention;
      if !ReasonOk(c.reason) { return Some(ControlError.BadReason); }
      if c.id in controls {
        return if controls[c.id] == ControlOf(c) then None else Some(ControlError.CommandReused);
      }
      error := ControlRefusal(View(), c, eventId);
      if error.Some? { return; }
      StoreControl(c);
      if c.kind.WakeNow? || c.kind.Resume? {
        EnqueueManualWake(c, eventId);
      } else {
        Enqueue(Outbox.ControlKey(c.id), c.process, None);
      }
    }

    // ---- events/ingestion.py, events/quarantine.py and security/deployment_assignment.py
    /** Add the references that have no owner yet, unless one belongs to another process. */
    method PersistReferences(p: Id, references: seq<Reference>) returns (ok: bool)
      modifies `owners
      ensures ok <==> Bound(old(owners), references, p).Some?
      ensures View() == old(View()).(owners := if ok then Bound(old(owners), references, p).value else old(owners))
    {
      var additions: map<Reference, Id> := map[];
      for i := 0 to |references|
        invariant owners == old(owners)
        invariant forall j :: 0 <= j < i ==> references[j] !in owners || owners[references[j]] == p
        invariant forall r :: r in additions <==> r !in owners && exists j :: 0 <= j < i && references[j] == r
        invariant forall r :: r in additions ==> additions[r] == p
      {
        var reference := references[i];
        if reference in owners && owners[reference] != p { return false; }
        if reference !in owners { additions := additions[reference := p]; }
      }
      assert owners + additions == Bound(owners, references, p).value;
      owners := owners + additions;
      ok := true;
    }

    method CreateProcess(p: Id, b: Bootstrap)
      modifies `processes
      ensures View() == old(View()).(processes := old(processes)[p := NewProcess(b, clock)])
    {
      processes := processes[p := NewProcess(b, clock)];
    }

    /** Store the row of a correlated event and schedule its delivery. */
    method StoreEvent(row: InboxRow)
      modifies `inbox, `arrivals, `sources, `outbox
      ensures View() == Arrived(old(View()), row).(outbox := Scheduled(old(View()), row))
    {
      hide Arrived;
      InsertEvent(row);
      if Delivers(row) {
        Enqueue(Outbox.EventKey(row.event.id), row.process.value, Some(row.event.id));
      }
    }

    /** Create the process of a trigger, and bind the references of a matched event. */
    method Correlate(e: Event, m: Match, bootstrap: Option<Bootstrap>)
      requires m.status.Matched? ==> m.process.Some? && Bound(owners, e.references, m.process.value).Some?
      modifies `processes, `owners
      ensures View() == Correlated(old(View()), e, m, bootstrap)
    {
      hide Bound;
      if m.reason.CreatedFromTrigger? && m.process.Some? && bootstrap.Some? {
        CreateProcess(m.process.value, bootstrap.value);
      }
      if m.status.Matched? {
        var ok := PersistReferences(m.process.value, e.references);
        assert ok;
      }
    }

    /** The part of ingestion after the checks that need no write. */
    method AdmitEvent(e: Event, bootstrap: Option<Bootstrap>, newId: Id)
      requires IngestRefusal(View(), e, bootstrap, newId).None?
      modifies `processes, `owners, `inbox, `arrivals, `sources, `outbox
      ensures View() == Admitted(old(View()), e, bootstrap, newId)
    {
      hide FinalMatch, Correlated, Arrived, Scheduled, RowFor, IngestRefusal;
      var m := FinalMatch(View(), e, bootstrap, newId);
      Frames.MatchIsBound(View(), e, bootstrap, newId);
      Correlate(e, m, bootstrap);
      StoreEvent(RowFor(View(), e, m));
    }

    /** events/ingestion.py ingest. */
    method Ingest(e: Event, bootstrap: Option<Bootstrap>, deployment: Option<Deployment>, newId: Id)
      returns (error: Option<IngestError>)
      modifies `processes, `owners, `inbox, `arrivals, `sources, `outbox
      ensures Ingested(old(View()), e, bootstrap, deployment, newId) ==
              if error.None? then Ok(View()) else Err(error.value)
      ensures error.Some? ==> View() == old(View())
    {
      hide IngestRefusal, Admitted;
      if e.eventType == OPERATOR_MANUAL_WAKE { return Some(ReservedEventType); }
      error := IngressError(View(), deployment);
      if error.Some? || (e.source, e.sourceId) in sources { return; }
      error := IngestRefusal(View(), e, bootstrap, newId);
      if error.Some? { return; }
      AdmitEvent(e, bootstrap, newId);
    }

    /** Keep the command and mark the row as matched. */
    method MatchEvent(c: ResolveQuarantine, terminal: bool)
      requires c.event in inbox
      modifies `commands, `inbox
      ensures View() == old(View()).(
                commands := old(commands)[c.id := CommandOf(c, !terminal)],
                inbox := old(inbox)[c.event := ReleasedRow(old(inbox)[c.event], c.process, terminal)])
    {
      commands := commands[c.id := CommandOf(c, !terminal)];
      var row := inbox[c.event];
      row := row.(process := Some(c.process), status := Matched);
      row := row.(reason := if terminal then TerminalRecordOnly else OperatorResolution);
      inbox := inbox[c.event := row];
    }

    /** Give a parked event to its process. */
    method ReleaseEvent(c: ResolveQuarantine)
      requires QuarantineRefusal(View(), c).None?
      modifies `owners, `commands, `inbox, `outbox
      ensures View() == Released(old(View()), c)
    {
      hide Bound, CommandOf, ReleasedRow;
      var terminal := IsTerminal(processes[c.process].status);
      var ok := PersistReferences(c.process, c.references);
      assert ok;
      MatchEvent(c, terminal);
      if !terminal {
        Enqueue(Outbox.EventKey(c.event), c.process, Some(c.event));
      }
    }

    /** events/quarantine.py resolve. */
    method Unpark(c: ResolveQuarantine, deployment: Option<Deployment>) returns (error: Option<QuarantineError>)
      modifies `owners, `commands, `inbox, `outbox
      ensures Unparked(old(View()), c, deployment) == if error.None? then Ok(View()) else Err(error.value)
      ensures error.Some? ==> View() == old(View())
    {
      hide QuarantineRefusal, Released;
      if !ReasonOk(c.reason) { return Some(QuarantineError.BadReason); }
      var ingress := IngressError(View(), deployment);
      if ingress == Some(TenantNotAuthorized) { return Some(NotAuthorized); }
      if ingress.Some? { return Some(Suspended); }
      if c.id in commands {
        return if SameQuarantine(commands[c.id], c) then None else Some(QuarantineError.CommandReused);
      }
      error := QuarantineRefusal(View(), c);
      if error.Some? { return; }
      ReleaseEvent(c);
    }

    /** security/deployment_assignment.py assign. */
    method Assign(target: Deployment, reason: string) returns (error: Option<AssignError>)
      modifies `deployment
      ensures Moved(old(View()), target, reason) == if error.None? then Ok(View()) else Err(error.value)
      ensures error.Some? ==> View() == old(View())
    {
      if target == UNASSIGNED { return Some(ReservedTarget); }
      if !ReasonOk(reason) { return Some(ReasonRequired); }
      var previous := deployment;
      if previous == target { return None; }
      if previous != UNASSIGNED {
        if HasActiveProcess(View()) { return Some(ActiveProcesses); }
        if HasOutstanding(View(), previous) { return Some(OutstandingDeliveries); }
      }
      deployment := target;
      error := None;
    }

    // ---- actions/execution.py
    method SetAttempt(key: Key, attempt: Attempt)
      modifies `attempts
      ensures View() == old(View()).(attempts := old(attempts)[key := attempt])
    {
      attempts := attempts[key := attempt];
    }

    method SetStatus(id: Id, status: ActionStatus)
      requires id in actions
      modifies `actions
      ensures View() == old(View()).(actions := WithStatus(old(View()), id, status))
    {
      actions := actions[id := actions[id].(status := status)];
    }

    /** The first transaction of execute. */
    method ReserveAttempt(release: Deployment, adapter: Id, p: Id, id: Id, revision: nat)
      returns (r: Result<Reservation, ExecError>)
      modifies `attempts, `actions
      ensures Reserve(old(View()), release, adapter, p, id, revision) ==
              if r.Ok? then Ok((View(), r.value)) else Err(r.error)
      ensures r.Err? || r == Ok(AlreadyFinal) ==> View() == old(View())
    {
      hide Refusal;
      var refusal := Refusal(View(), release, p, id, revision, true);
      if refusal.Some? { return Err(refusal.value); }
      RefusalFindsRows(View(), release, p, id, revision, true);
      var key := KeyOf(id, actions[id]);
      if key !in attempts {
        SetAttempt(key, Attempt(adapter, Executing, Option.None));
        SetStatus(id, Executing);
        return Ok(NewAttempt);
      }
      if attempts[key].adapter != adapter { return Err(AdapterChanged); }
      if IsFinal(attempts[key].status) { return Ok(AlreadyFinal); }
      SetStatus(id, Executing);
      r := Ok(OldAttempt);
    }

    /** _record_terminal. */
    method RecordOutcome(key: Key, status: ActionStatus, effect: Option<Effect>)
      modifies `attempts, `actions
      ensures View() == Record(old(View()), key, status, effect)
    {
      if key !in attempts || key.request !in actions { return; }
      var attempt := attempts[key];
      if IsFinal(attempt.status) { return; }
      SetAttempt(key, attempt.(status := status, effect := effect));
      SetStatus(key.request, status);
    }

    /** The first transaction of reconcile. */
    method BeginReconcile(release: Deployment, p: Id, id: Id, revision: nat) returns (r: Result<bool, ExecError>)
      modifies `attempts, `actions
      ensures StartReconcile(old(View()), release, p, id, revision) ==
              if r.Ok? then Ok((View(), r.value)) else Err(r.error)
      ensures r.Err? ==> View() == old(View())
    {
      hide Refusal;
      var refusal := Refusal(View(), release, p, id, revision, false);
      if refusal.Some? { return Err(refusal.value); }
      RefusalFindsRows(View(), release, p, id, revision, false);
      var key := KeyOf(id, actions[id]);
      if key !in attempts { return Err(NoAttempt); }
      if IsFinal(attempts[key].status) { return Ok(true); }
      SetAttempt(key, attempts[key].(status := Reconciling));
      SetStatus(id, Reconciling);
      r := Ok(false);
    }

    /** The second authorization, just before the provider call. */
    method AuthorizeCrossing(release: Deployment, p: Id, id: Id, revision: nat, breakers: Breakers)
      returns (r: Result<Verdict, ExecError>)
      ensures r == Cross(View(), release, p, id, revision, breakers)
    {
      hide Refusal, Inspect, Communications.Allowed, Communications.BlockList;
      var refusal := Refusal(View(), release, p, id, revision, true);
      if refusal.Some? { return Err(refusal.value); }
      RefusalFindsRows(View(), release, p, id, revision, true);
      var policy := processes[p].definition.comms;
      if Expired(View(), p) { return Ok(Blocked); }
      if actions[id].payload.actionType in policy.outboundTypes {
        if !IsReserved(actions[id].status) { return Err(NotReserved); }
        var blocks := Communications.EvaluateCommunicationSafety(policy, Inspect(View(), p, Some(id)), clock);
        if blocks != [] { return Ok(Blocked); }
      }
      r := Ok(if BreakerStops(View(), p, id, breakers) then Blocked else MayCall);
    }

    /** Without a new attempt the provider is asked first, and only an idempotent one that knows
        nothing may be called again. */
    method Recover(stub: StubActionAdapter, key: Key, isNew: bool, idempotent: bool) returns (r: Option<Report>)
      requires stub.Valid()
      ensures isNew ==> r.None?
      ensures !isNew && key !in stub.Stored() ==> (r.None? <==> idempotent)
      ensures !isNew && key !in stub.Stored() && r.Some? ==> r.value == Report(Unknown, Option.None)
      ensures !isNew && key in stub.Stored() ==> r == Some(ReportOf(stub.Stored()[key]))
      ensures r.Some? ==> Truthful(stub.Stored(), key, r.value.status, r.value.effect)
    {
      if isNew { return Option.None; }
      var recovered := stub.Lookup(key);
      if recovered.Some? {
        return Some(Report(StatusOf(OutcomeOf(recovered.value)), recovered));
      }
      if !idempotent { return Some(Report(Unknown, Option.None)); }
      r := Option.None;
    }

    /** The second transaction of execute with the provider call inside it. */
    method CallProvider(stub: StubActionAdapter, release: Deployment, p: Id, id: Id, revision: nat,
                        breakers: Breakers, key: Key)
      returns (r: Result<Report, ExecError>)
      requires stub.Valid()
      modifies stub
      ensures stub.Valid()
      ensures match Cross(View(), release, p, id, revision, breakers)
              case Err(e) =>
                r == Err(e) && stub.requests == old(stub.requests) && stub.Stored() == old(stub.Stored())
              case Ok(Blocked) =>
                r == Ok(Report(Failed, Option.None)) && stub.requests == old(stub.requests) &&
                stub.Stored() == old(stub.Stored())
              case Ok(MayCall) =>
                var outcome := Answers(old(stub.Stored()), key, old(stub.NextChoice()));
                r == Ok(Report(StatusOf(outcome), EffectOf(outcome))) &&
                stub.requests == old(stub.requests) + [key] &&
                stub.Stored() == Stores(old(stub.Stored()), key, old(stub.NextChoice()))
    {
      hide Cross, Answers, Stores, StatusOf, EffectOf;
      var verdict := AuthorizeCrossing(release, p, id, revision, breakers);
      if verdict.Err? { return Err(verdict.error); }
      if verdict.value.Blocked? { return Ok(Report(Failed, Option.None)); }
      var outcome := stub.Execute(key);
      r := Ok(Report(StatusOf(outcome), EffectOf(outcome)));
    }

    /** The second authorization, the call and the record of its outcome. */
    method CrossAndRecord(stub: StubActionAdapter, release: Deployment, p: Id, id: Id, revision: nat,
                          breakers: Breakers, key: Key)
      returns (r: Result<Report, ExecError>, ghost calls: seq<Key>)
      requires stub.Valid()
      modifies `attempts, `actions, stub
      ensures stub.Valid() && stub.requests == old(stub.requests) + calls
      ensures Ended(View(), stub.Stored(), calls, r) ==
              CrossedOver(old(View()), old(stub.Stored()), old(stub.NextChoice()), release, p, id, revision, breakers, key)
    {
      hide Cross, Record, Answers, Stores, StatusOf, EffectOf, View;
      ghost var before := stub.requests;
      r := CallProvider(stub, release, p, id, revision, breakers, key);
      calls := stub.requests[|before|..];
      if r.Ok? { RecordOutcome(key, r.value.status, r.value.effect); }
    }

    /** actions/execution.py execute, run to its end without a crash. */
    method Execute(stub: StubActionAdapter, adapter: Id, idempotent: bool, release: Deployment, p: Id, id: Id,
                   revision: nat, breakers: Breakers)
      returns (r: Result<Report, ExecError>, ghost calls: seq<Key>)
      requires stub.Valid()
      modifies `attempts, `actions, stub
      ensures stub.Valid() && stub.requests == old(stub.requests) + calls
      ensures Ended(View(), stub.Stored(), calls, r) ==
              Executed(old(View()), old(stub.Stored()), old(stub.NextChoice()), idempotent, adapter, release, p, id,
                       revision, breakers)
    {
      hide Reserve, CrossedOver, Record, StatusOf, OutcomeOf;
      var reserved := ReserveAttempt(release, adapter, p, id, revision);
      calls := [];
      if reserved.Err? { return Err(reserved.error), []; }
      Frames.ReserveFindsRow(old(View()), release, adapter, p, id, revision);
      var key := KeyOf(id, actions[id]);
      if reserved.value.AlreadyFinal? {
        return Ok(Report(attempts[key].status, attempts[key].effect)), [];
      }
      var report := Recover(stub, key, reserved.value.NewAttempt?, idempotent);
      if report.Some? {
        RecordOutcome(key, report.value.status, report.value.effect);
        return Ok(report.value), [];
      }
      r, calls := CrossAndRecord(stub, release, p, id, revision, breakers, key);
    }

    /** actions/execution.py reconcile, run to its end: a lookup and never a call. */
    method Reconcile(stub: StubActionAdapter, release: Deployment, p: Id, id: Id, revision: nat)
      returns (r: Result<Report, ExecError>)
      requires stub.Valid()
      modifies `attempts, `actions
      ensures Ended(View(), stub.Stored(), [], r) ==
              Reconciliation(old(View()), stub.Stored(), release, p, id, revision)
    {
      hide StartReconcile, Record, StatusOf, OutcomeOf;
      var begun := BeginReconcile(release, p, id, revision);
      if begun.Err? { return Err(begun.error); }
      Frames.ReconcileFindsRow(old(View()), release, p, id, revision);
      var key := KeyOf(id, actions[id]);
      if begun.value { return Ok(Report(attempts[key].status, attempts[key].effect)); }
      var recovered := stub.Lookup(key);
      var report := if recovered.None? then Report(Unknown, Option.None)
                    else Report(StatusOf(OutcomeOf(recovered.value)), recovered);
      RecordOutcome(key, report.status, report.effect);
      r := Ok(report);
    }
  }

  lemma RefusalFindsRows(db: Db, release: Deployment, p: Id, id: Id, revision: nat, needActive: bool)
    requires Refusal(db, release, p, id, revision, needActive).None?
    ensures id in db.actions && p in db.processes && db.actions[id].process == p
  {}
}
