/** Durable process state: decisions, interventions and operator controls. */
module Processes {
  import opened Contracts
  import opened Knowledge
  import opened Store
  import Outbox
  import Transitions

  // -------------------------------------------------------------- decisions

  /** Size limits on what a process may hold; their arithmetic is not modelled. */
  datatype Limits = Limits(facts: Projection -> bool, memory: Memory -> bool)

  datatype StateError =
    | ProcessNotFound | TurnReused | DecisionReused | AlreadyTerminal | IsPaused
    | EventsUnavailable | AttemptsUnavailable | OverLimit | TransitionRejected

  predicate EventsAvailable(db: Db, p: Id, ids: seq<Id>) {
    forall i :: 0 <= i < |ids| ==>
      ids[i] in db.inbox && db.inbox[ids[i]].process == Some(p) && db.inbox[ids[i]].status.Matched?
  }

  predicate AttemptsAvailable(db: Db, p: Id, ids: seq<Key>) {
    forall i :: 0 <= i < |ids| ==> ids[i] in db.attempts && ids[i].process == p
  }

  function EventSources(db: Db, p: Id, ids: seq<Id>): seq<Source>
    requires EventsAvailable(db, p, ids)
  {
    seq(|ids|, i requires 0 <= i < |ids| => Source(FromEvent(ids[i]), db.inbox[ids[i]].event.facts))
  }

  function AttemptSources(db: Db, p: Id, ids: seq<Key>): seq<Source>
    requires AttemptsAvailable(db, p, ids)
  {
    seq(|ids|, i requires 0 <= i < |ids| => Source(FromAttempt(ids[i]), db.attempts[ids[i]].Facts()))
  }

  predicate UsesTurn(history: seq<Revision>, turn: Id) {
    exists i :: 0 <= i < |history| && history[i].turn == turn
  }

  predicate UsesDecision(history: seq<Revision>, decision: Id) {
    exists i :: 0 <= i < |history| && history[i].decision == decision
  }

  predicate IsReplay(history: seq<Revision>, turn: Id, decision: Id) {
    exists i :: 0 <= i < |history| && history[i].turn == turn && history[i].decision == decision
  }

  /** Why a decision cannot be applied to a process, before its facts are folded. */
  function StateRefusal(process: Process, db: Db, p: Id, turn: Id, d: Decision): Option<StateError> {
    if UsesTurn(process.history, turn) then
      if IsReplay(process.history, turn, d.id) then None else Some(TurnReused)
    else if UsesDecision(process.history, d.id) then Some(DecisionReused)
    else if IsTerminal(process.status) then Some(AlreadyTerminal)
    else if process.status.Paused? then Some(IsPaused)
    else if !EventsAvailable(db, p, d.eventIds) then Some(EventsUnavailable)
    else if !AttemptsAvailable(db, p, d.attemptIds) then Some(AttemptsUnavailable)
    else None
  }

  function Advanced(process: Process, turn: Id, d: Decision, facts: Projection, status: ProcessStatus,
                    wakes: seq<Wake>): Process
  {
    var summary := if d.memory.summary.Some? then d.memory.summary else process.summary;
    process.(
      status := status, wakes := wakes, facts := facts, summary := summary,
      commitments := d.memory.commitments, stateVersion := process.stateVersion + 1,
      history := process.history + [
        Revision(turn, d.id, process.stateVersion + 1, status, facts, summary, d.memory.commitments, wakes)])
  }

  function Decided(db: Db, p: Id, turn: Id, d: Decision, limits: Limits): Result<Db, StateError> {
    if p !in db.processes then Err(ProcessNotFound)
    else
      var process := db.processes[p];
      var error := StateRefusal(process, db, p, turn, d);
      if error.Some? then Err(error.value)
      else if UsesTurn(process.history, turn) then Ok(db)
      else
        var facts := Project(process.facts, EventSources(db, p, d.eventIds) + AttemptSources(db, p, d.attemptIds));
        var open := OpenActions(db.actions, p);
        var status := Transitions.NextStatus(
          d, open, process.definition.mayComplete, facts.authoritative, process.definition.requirements);
        if !limits.facts(facts) then Err(OverLimit)
        else if status.Err? then Err(TransitionRejected)
        else if !limits.memory(d.memory) then Err(OverLimit)
        else
          Ok(db.(processes := db.processes[p := Advanced(
            process, turn, d, facts, status.value, Transitions.EffectiveWakes(d, status.value, open))]))
  }

  // ---------------------------------------------------------- interventions

  datatype ControlError =
    | NoProcess | BadReason | CommandReused | Terminal | NeedsIntervention | InterventionNotOpen
    | AlreadyPaused | NotPaused | ResumeFirst | EventIdTaken

  const AskOperator := [HumanWake(OperatorInteraction)]

  /** An intervention belongs to one agent turn of a process and goes by that turn. */
  function Intervened(db: Db, p: Id, turn: Id): Result<Db, ControlError> {
    if (p, turn) in db.interventions then Ok(db)
    else if p !in db.processes then Err(NoProcess)
    else
      Ok(db.(interventions := db.interventions[(p, turn) := true],
             processes := if db.processes[p].IsClosed() then db.processes
                          else db.processes[p := db.processes[p].(status := Review, wakes := AskOperator)]))
  }

  // --------------------------------------------------------------- controls

  datatype ControlCommand = ControlCommand(
    id: Id, process: Id, actor: Id, kind: ControlKind, reason: string, intervention: Option<Id>)

  function ControlOf(c: ControlCommand): Control {
    Control(c.process, c.actor, c.kind, c.reason, c.intervention)
  }

  predicate IsOpenIntervention(db: Db, p: Id, turn: Id) {
    (p, turn) in db.interventions && db.interventions[(p, turn)]
  }

  /** Why a new command cannot be applied. `eventId` is the identity of the wake event that
      waking and resuming insert. */
  function ControlRefusal(db: Db, c: ControlCommand, eventId: Id): Option<ControlError> {
    if c.process !in db.processes then Some(NoProcess)
    else
      var status := db.processes[c.process].status;
      if IsTerminal(status) then Some(Terminal)
      else
        match c.kind
        case Retry =>
          if c.intervention.None? then Some(NeedsIntervention)
          else if !IsOpenIntervention(db, c.process, c.intervention.value) then Some(InterventionNotOpen)
          else None
        case Takeover => if status.Paused? then Some(AlreadyPaused) else None
        case Resume =>
          if !status.Paused? then Some(NotPaused)
          else if WakeClashes(db, c.id, eventId) then Some(EventIdTaken) else None
        case WakeNow =>
          if status.Paused? then Some(ResumeFirst)
          else if WakeClashes(db, c.id, eventId) then Some(EventIdTaken) else None
  }

  /** The source identity of the wake event of a command. */
  function WakeSource(command: Id): (string, string) {
    (OPERATOR_SOURCE, Digits(command))
  }

  function Digits(n: nat): (s: string)
    ensures |s| > 0
  {
    if n < 10 then ["0123456789"[n]] else Digits(n / 10) + ["0123456789"[n % 10]]
  }

  /** Two commands never share the source identity of their wake events. */
  lemma WakeSourcesDiffer(m: Id, n: Id)
    requires WakeSource(m) == WakeSource(n)
    ensures m == n
  {
    DigitsDiffer(m, n);
  }

  lemma {:induction false} DigitsDiffer(m: nat, n: nat)
    requires Digits(m) == Digits(n)
    ensures m == n
  {
    var a, b := Digits(m), Digits(n);
    var digits := "0123456789";
    assert forall i, j :: 0 <= i < j < 10 ==> digits[i] != digits[j];
    assert a[|a| - 1] == digits[m % 10] && b[|b| - 1] == digits[n % 10];
    if m >= 10 && n >= 10 {
      assert a[..|a| - 1] == Digits(m / 10) && b[..|b| - 1] == Digits(n / 10);
      DigitsDiffer(m / 10, n / 10);
    }
  }

  predicate WakeClashes(db: Db, command: Id, eventId: Id) {
    eventId in db.inbox || WakeSource(command) in db.sources
  }

  function WakeEvent(c: ControlCommand, eventId: Id, now: int): Event {
    Event(eventId, Some(c.process), OPERATOR_MANUAL_WAKE, OPERATOR_SOURCE, Digits(c.id), now, [], [])
  }

  function Controlled(process: Process, kind: ControlKind): Process {
    match kind
    case Retry => process.(status := Active, wakes := [])
    case Takeover => process.(status := Paused, wakes := AskOperator)
    case Resume => process.(status := Active, wakes := [])
    case WakeNow => process
  }

  /** A manual wake is an inbox event of its own, delivered like any other. */
  function Woken(db: Db, c: ControlCommand, eventId: Id): Db {
    Arrived(db, InboxRow(WakeEvent(c, eventId, db.clock), Some(c.process), Matched, OperatorWake)).(
      outbox := Enqueued(db, Outbox.ControlKey(c.id), c.process, Some(eventId)))
  }

  function Obeyed(db: Db, c: ControlCommand): (r: Db)
    requires c.process in db.processes && (c.kind.Retry? ==> c.intervention.Some?)
    ensures r.outbox == db.outbox && r.clock == db.clock
  {
    db.(processes := db.processes[c.process := Controlled(db.processes[c.process], c.kind)],
        controls := db.controls[c.id := ControlOf(c)],
        interventions := if c.kind.Retry? then db.interventions[(c.process, c.intervention.value) := false]
                         else db.interventions)
  }

  /** A new command: the process changes and is told, by a wake event or a control message. */
  function Carried(db: Db, c: ControlCommand, eventId: Id): Db
    requires c.process in db.processes && (c.kind.Retry? ==> c.intervention.Some?)
  {
    if c.kind.WakeNow? || c.kind.Resume? then Woken(Obeyed(db, c), c, eventId)
    else Obeyed(db, c).(outbox := Enqueued(db, Outbox.ControlKey(c.id), c.process, None))
  }

  function Commanded(db: Db, c: ControlCommand, eventId: Id): Result<Db, ControlError> {
    if !ReasonOk(c.reason) then Err(BadReason)
    else if c.id in db.controls then
      if db.controls[c.id] == ControlOf(c) then Ok(db) else Err(CommandReused)
    else
      var refusal := ControlRefusal(db, c, eventId);
      if refusal.Some? then Err(refusal.value)
      else
        Ok(Carried(db, c, eventId))
  }

  // -------------------------------------------------------- what they answer

  /** Some request of the process has one of the statuses. */
  ghost predicate HasRequest(db: Db, p: Id, statuses: set<ActionStatus>) {
    exists id :: id in db.actions && db.actions[id].process == p && db.actions[id].status in statuses
  }

  ghost predicate IsBusy(db: Db, p: Id) {
    HasRequest(db, p, {Allowed, PendingApproval, Approved, Executing, Unknown, Reconciling})
  }

  lemma OpenAreRequests(db: Db, p: Id, statuses: set<ActionStatus>)
    requires statuses <= {Allowed, PendingApproval, Approved, Executing, Unknown, Reconciling}
    ensures Transitions.Holds(OpenActions(db.actions, p), statuses) <==> HasRequest(db, p, statuses)
  {
    var open := OpenActions(db.actions, p);
    if HasRequest(db, p, statuses) {
      var id :| id in db.actions && db.actions[id].process == p && db.actions[id].status in statuses;
      assert id in open && open[id] in statuses;
    }
    if Transitions.Holds(open, statuses) {
      var id :| id in open && open[id] in statuses;
      assert id in db.actions && db.actions[id].process == p && db.actions[id].status in statuses;
    }
  }

  lemma BusyIsOpen(db: Db, p: Id)
    ensures IsBusy(db, p) <==> OpenActions(db.actions, p) != map[]
  {
    var open := OpenActions(db.actions, p);
    if open != map[] {
      var id :| id in open;
      assert db.actions[id].status in {Allowed, PendingApproval, Approved, Executing, Unknown, Reconciling};
    }
    if IsBusy(db, p) {
      var id :| id in db.actions && db.actions[id].process == p &&
                db.actions[id].status in {Allowed, PendingApproval, Approved, Executing, Unknown, Reconciling};
      assert id in open;
    }
  }

  /** What each refusal of a decision says about the process and what the decision is based on. */
  ghost predicate DecisionRefused(db: Db, p: Id, turn: Id, d: Decision, limits: Limits, e: StateError) {
    if e.ProcessNotFound? then p !in db.processes
    else
      p in db.processes &&
      var process := db.processes[p];
      var replay := exists i :: 0 <= i < |process.history| && process.history[i].turn == turn;
      match e
      case ProcessNotFound => false
      case TurnReused =>
        replay && forall i :: 0 <= i < |process.history| ==>
          process.history[i].turn != turn || process.history[i].decision != d.id
      case DecisionReused =>
        !replay && exists i :: 0 <= i < |process.history| && process.history[i].decision == d.id
      case AlreadyTerminal => !replay && process.status in {Completed, Cancelled, ProcessFailed}
      case IsPaused => !replay && process.status.Paused?
      case EventsUnavailable => !replay && exists i :: 0 <= i < |d.eventIds| && !IsEventOf(db, p, d.eventIds[i])
      case AttemptsUnavailable =>
        !replay && exists i :: 0 <= i < |d.attemptIds| && !IsAttemptOf(db, p, d.attemptIds[i])
      case OverLimit =>
        && !replay && EventsAvailable(db, p, d.eventIds) && AttemptsAvailable(db, p, d.attemptIds)
        && (!limits.memory(d.memory) || !limits.facts(Learned(db, p, d)))
      case TransitionRejected =>
        && !replay && EventsAvailable(db, p, d.eventIds) && AttemptsAvailable(db, p, d.attemptIds)
        && d.status.DecideCompleted?
        && (IsBusy(db, p) || !process.definition.mayComplete ||
            !Transitions.Satisfied(Learned(db, p, d).authoritative, process.definition.requirements))
  }

  ghost predicate IsEventOf(db: Db, p: Id, e: Id) {
    e in db.inbox && db.inbox[e].process == Some(p) && db.inbox[e].status.Matched?
  }

  ghost predicate IsAttemptOf(db: Db, p: Id, k: Key) {
    k in db.attempts && k.process == p
  }

  /** The facts of a process after the turn of a decision. */
  ghost function Learned(db: Db, p: Id, d: Decision): Projection
    requires p in db.processes && EventsAvailable(db, p, d.eventIds) && AttemptsAvailable(db, p, d.attemptIds)
  {
    Project(db.processes[p].facts, EventSources(db, p, d.eventIds) + AttemptSources(db, p, d.attemptIds))
  }

  /** The status of a process after a decision, read off its requests: a person is waited for, or
      something else is under way, or the decision itself says how it goes on. */
  ghost predicate StatusFollows(db: Db, p: Id, d: Decision, status: ProcessStatus) {
    && (status.Completed? <==> d.status.DecideCompleted?)
    && (status.Review? <==>
          !d.status.DecideCompleted? &&
          (HasRequest(db, p, {PendingApproval, Unknown, Reconciling}) ||
           (!IsBusy(db, p) && (d.status.DecideEscalated? || Transitions.HasHumanWake(d)))))
    && (status.Waiting? <==> !IsBusy(db, p) && d.status.DecideWaiting? && !Transitions.HasHumanWake(d))
    && status in {Completed, Review, Waiting, Active}
  }

  /** Its wakes likewise. */
  ghost predicate WakesFollow(db: Db, p: Id, d: Decision, status: ProcessStatus, wakes: seq<Wake>) {
    wakes ==
      if HasRequest(db, p, {PendingApproval}) then [HumanWake(ApprovalInteraction)]
      else if HasRequest(db, p, {Unknown, Reconciling}) then [HumanWake(OperatorInteraction)]
      else if IsBusy(db, p) || status.Completed? then []
      else if status.Review? && d.wakes == [] then [HumanWake(OperatorInteraction)]
      else d.wakes
  }

  /** The process after its next decision: one version and one revision more, which says the same
      as the process; facts are learned, a summary is replaced only by another one. */
  ghost predicate NextVersion(db: Db, p: Id, turn: Id, d: Decision, process: Process)
    requires p in db.processes && EventsAvailable(db, p, d.eventIds) && AttemptsAvailable(db, p, d.attemptIds)
  {
    var before := db.processes[p];
    && StatusFollows(db, p, d, process.status) && WakesFollow(db, p, d, process.status, process.wakes)
    && process.facts == Learned(db, p, d) && process.commitments == d.memory.commitments
    && process.summary == (if d.memory.summary.None? then before.summary else d.memory.summary)
    && process.stateVersion == before.stateVersion + 1
    && process.history == before.history + [
         Revision(turn, d.id, process.stateVersion, process.status, process.facts, process.summary,
                  process.commitments, process.wakes)]
    && process.definition == before.definition && process.deployment == before.deployment
    && process.createdAt == before.createdAt && process.recordOnly == before.recordOnly
  }

  lemma TransitionFollows(db: Db, p: Id, d: Decision, mayComplete: bool, facts: map<string, Json>,
                          requirements: map<string, Json>)
    ensures var open := OpenActions(db.actions, p);
            match Transitions.NextStatus(d, open, mayComplete, facts, requirements)
            case Err(_) =>
              d.status.DecideCompleted? &&
              (IsBusy(db, p) || !mayComplete || !Transitions.Satisfied(facts, requirements))
            case Ok(status) =>
              && !(d.status.DecideCompleted? &&
                   (IsBusy(db, p) || !mayComplete || !Transitions.Satisfied(facts, requirements)))
              && StatusFollows(db, p, d, status)
              && WakesFollow(db, p, d, status, Transitions.EffectiveWakes(d, status, open))
  {
    hide Transitions.NextStatus, Transitions.EffectiveWakes, IsBusy, HasRequest, Transitions.Holds, OpenActions;
    var open := OpenActions(db.actions, p);
    BusyIsOpen(db, p);
    OpenAreRequests(db, p, {PendingApproval});
    OpenAreRequests(db, p, {Unknown, Reconciling});
    OpenAreRequests(db, p, {PendingApproval, Unknown, Reconciling});
    Transitions.StatusExactly(d, open, mayComplete, facts, requirements);
    var r := Transitions.NextStatus(d, open, mayComplete, facts, requirements);
    if r.Ok? { Transitions.WakesExactly(d, r.value, open); }
  }

  /** A decision is refused exactly for a reason that its refusal names. A replayed one changes
      nothing. A new one advances its process, and nothing else, by one version. */
  lemma DecisionAnswers(db: Db, p: Id, turn: Id, d: Decision, limits: Limits)
    ensures match Decided(db, p, turn, d, limits)
            case Err(e) => DecisionRefused(db, p, turn, d, limits, e)
            case Ok(after) =>
              && (forall e :: !DecisionRefused(db, p, turn, d, limits, e))
              && p in db.processes
              && if exists i :: 0 <= i < |db.processes[p].history| && db.processes[p].history[i].turn == turn
                 then after == db
                 else
                   && EventsAvailable(db, p, d.eventIds) && AttemptsAvailable(db, p, d.attemptIds)
                   && p in after.processes && after == db.(processes := db.processes[p := after.processes[p]])
                   && NextVersion(db, p, turn, d, after.processes[p])
  {
    hide Transitions.NextStatus, Transitions.EffectiveWakes, StatusFollows, WakesFollow, IsBusy, Project,
         EventSources, AttemptSources, Transitions.Satisfied, OpenActions;
    if p in db.processes && StateRefusal(db.processes[p], db, p, turn, d).None? &&
       !UsesTurn(db.processes[p].history, turn) {
      TransitionFollows(db, p, d, db.processes[p].definition.mayComplete, Learned(db, p, d).authoritative,
                        db.processes[p].definition.requirements);
    }
  }

  /** An intervention is opened once a turn; it calls for the operator unless the process is
      paused or terminal, and changes nothing else. */
  lemma InterventionAnswers(db: Db, p: Id, turn: Id)
    ensures match Intervened(db, p, turn)
            case Err(e) => e.NoProcess? && p !in db.processes && (p, turn) !in db.interventions
            case Ok(after) =>
              if (p, turn) in db.interventions then after == db
              else
                && p in db.processes
                && after == db.(interventions := db.interventions[(p, turn) := true], processes := after.processes)
                && p in after.processes && after.processes == db.processes[p := after.processes[p]]
                && after.processes[p] ==
                   if db.processes[p].status in {Paused, Completed, Cancelled, ProcessFailed} then db.processes[p]
                   else db.processes[p].(status := Review, wakes := [HumanWake(OperatorInteraction)])
  {
    if p in db.processes { assert db.processes[p := db.processes[p]] == db.processes; }
  }

  ghost predicate IsNewFor(db: Db, c: ControlCommand) {
    c.id !in db.controls && c.process in db.processes
  }

  /** What each refusal of a control command says about its process. */
  ghost predicate ControlRefused(db: Db, c: ControlCommand, eventId: Id, e: ControlError) {
    match e
    case BadReason => |c.reason| == 0 || |c.reason| > 10_000
    case CommandReused =>
      c.id in db.controls && db.controls[c.id] != Control(c.process, c.actor, c.kind, c.reason, c.intervention)
    case NoProcess => c.id !in db.controls && c.process !in db.processes
    case Terminal => IsNewFor(db, c) && db.processes[c.process].status in {Completed, Cancelled, ProcessFailed}
    case NeedsIntervention => IsNewFor(db, c) && c.kind.Retry? && c.intervention.None?
    case InterventionNotOpen =>
      && IsNewFor(db, c) && c.kind.Retry? && c.intervention.Some?
      && var key := (c.process, c.intervention.value); key !in db.interventions || !db.interventions[key]
    case AlreadyPaused => IsNewFor(db, c) && c.kind.Takeover? && db.processes[c.process].status.Paused?
    case NotPaused => IsNewFor(db, c) && c.kind.Resume? && !db.processes[c.process].status.Paused?
    case ResumeFirst => IsNewFor(db, c) && c.kind.WakeNow? && db.processes[c.process].status.Paused?
    case EventIdTaken =>
      && IsNewFor(db, c) && (c.kind.WakeNow? || c.kind.Resume?)
      && (eventId in db.inbox || (OPERATOR_SOURCE, Digits(c.id)) in db.sources)
  }

  /** A process after a command of each kind. */
  ghost predicate ControlledAs(before: Process, after: Process, kind: ControlKind) {
    && after == before.(status := after.status, wakes := after.wakes)
    && match kind
       case Takeover => after.status.Paused? && after.wakes == [HumanWake(OperatorInteraction)]
       case Retry => after.status.Active? && after.wakes == []
       case Resume => after.status.Active? && after.wakes == []
       case WakeNow => after == before
  }

  /** The mail of a wake or resume command: a matched operator event with its delivery. Others
      send their own message. */
  ghost predicate ControlMailed(db: Db, after: Db, c: ControlCommand, eventId: Id) {
    if c.kind.WakeNow? || c.kind.Resume? then
      var event := Event(eventId, Some(c.process), OPERATOR_MANUAL_WAKE, OPERATOR_SOURCE, Digits(c.id), db.clock, [], []);
      && after.inbox == db.inbox[eventId := InboxRow(event, Some(c.process), Matched, OperatorWake)]
      && after.arrivals == db.arrivals + [eventId]
      && after.sources == db.sources[(OPERATOR_SOURCE, Digits(c.id)) := eventId]
      && Told(db, after.outbox, Outbox.ControlKey(c.id), c.process, Some(eventId))
    else
      && after.inbox == db.inbox && after.arrivals == db.arrivals && after.sources == db.sources
      && Told(db, after.outbox, Outbox.ControlKey(c.id), c.process, None)
  }

  /** The tenant, requests, attempts, reviews, references and quarantine are as before. */
  ghost predicate WorkUntouched(db: Db, after: Db) {
    && after.clock == db.clock && after.active == db.active && after.deployment == db.deployment
    && after.actions == db.actions && after.order == db.order && after.slots == db.slots
    && after.attempts == db.attempts && after.approvals == db.approvals && after.reviews == db.reviews
    && after.resolutions == db.resolutions && after.owners == db.owners && after.commands == db.commands
  }

  /** What a new command leaves behind. */
  ghost predicate Commands(db: Db, after: Db, c: ControlCommand, eventId: Id)
    requires c.process in db.processes
  {
    && c.process in after.processes && after.processes == db.processes[c.process := after.processes[c.process]]
    && WorkUntouched(db, after)
    && ControlledAs(db.processes[c.process], after.processes[c.process], c.kind)
    && after.controls == db.controls[c.id := Control(c.process, c.actor, c.kind, c.reason, c.intervention)]
    && after.interventions ==
       (if c.kind.Retry? && c.intervention.Some? then db.interventions[(c.process, c.intervention.value) := false]
        else db.interventions)
    && ControlMailed(db, after, c, eventId)
  }

  lemma ObeyedCommands(db: Db, c: ControlCommand)
    requires c.process in db.processes && (c.kind.Retry? ==> c.intervention.Some?)
    ensures var after := Obeyed(db, c);
            && WorkUntouched(db, after) && after.outbox == db.outbox
            && after.inbox == db.inbox && after.arrivals == db.arrivals && after.sources == db.sources
            && c.process in after.processes && after.processes == db.processes[c.process := after.processes[c.process]]
            && ControlledAs(db.processes[c.process], after.processes[c.process], c.kind)
            && after.controls == db.controls[c.id := Control(c.process, c.actor, c.kind, c.reason, c.intervention)]
            && after.interventions ==
               (if c.kind.Retry? then db.interventions[(c.process, c.intervention.value) := false] else db.interventions)
  {}

  lemma WokenMails(db: Db, c: ControlCommand, eventId: Id)
    ensures var after := Woken(db, c, eventId);
            var event := Event(eventId, Some(c.process), OPERATOR_MANUAL_WAKE, OPERATOR_SOURCE, Digits(c.id), db.clock, [], []);
            && WorkUntouched(db, after) && after.processes == db.processes && after.controls == db.controls
            && after.interventions == db.interventions
            && after.inbox == db.inbox[eventId := InboxRow(event, Some(c.process), Matched, OperatorWake)]
            && after.arrivals == db.arrivals + [eventId]
            && after.sources == db.sources[(OPERATOR_SOURCE, Digits(c.id)) := eventId]
            && after.outbox == Enqueued(db, Outbox.ControlKey(c.id), c.process, Some(eventId))
  {
    hide Enqueued, Digits;
  }

  lemma CarriedCommands(db: Db, c: ControlCommand, eventId: Id)
    requires c.process in db.processes && (c.kind.Retry? ==> c.intervention.Some?)
    ensures Commands(db, Carried(db, c, eventId), c, eventId)
  {
    hide Enqueued, Digits, Told, Obeyed, Woken, ControlledAs;
    var cause := if c.kind.WakeNow? || c.kind.Resume? then Some(eventId) else None;
    var mid := Obeyed(db, c);
    ObeyedCommands(db, c);
    WokenMails(mid, c, eventId);
    EnqueuedTells(db, Outbox.ControlKey(c.id), c.process, cause);
    EnqueuedAfter(db, mid, Outbox.ControlKey(c.id), c.process, cause);
  }

  /** The outbox is read as it was before the command. */
  lemma EnqueuedAfter(db: Db, mid: Db, key: Outbox.DedupKey, p: Id, cause: Option<Id>)
    requires mid.outbox == db.outbox && mid.clock == db.clock
    ensures Enqueued(mid, key, p, cause) == Enqueued(db, key, p, cause)
  {}

  /** A command is refused exactly for a reason that its refusal names, and a repeated one changes
      nothing. A new one pauses, activates or leaves its process, resolves the intervention of a
      retry, is kept, and sends its mail. */
  lemma ControlAnswers(db: Db, c: ControlCommand, eventId: Id)
    ensures match Commanded(db, c, eventId)
            case Err(e) => ControlRefused(db, c, eventId, e)
            case Ok(after) =>
              && (forall e :: !ControlRefused(db, c, eventId, e))
              && (if c.id in db.controls then after == db
                  else c.process in db.processes && Commands(db, after, c, eventId))
  {
    hide Carried, Commands, Digits;
    var r := Commanded(db, c, eventId);
    if r.Ok? && c.id !in db.controls { CarriedCommands(db, c, eventId); }
  }
}
