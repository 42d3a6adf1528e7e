/** The transactions of action execution and the provider they call between them. */
module Execution {
  import opened Contracts
  import opened Store
  import opened Gateway
  import Communications

  datatype ExecError =
    | TenantDenied | ActionNotFound | Closed | NotCurrentlyAllowed | NotApproved | ApprovalExpired
    | DecisionMissing | NoLongerExecutable | PolicyDenied | OtherDeployment | AdapterChanged
    | NoAttempt | NotReserved

  // -------------------------------------------------------- authorization

  predicate Retryable(s: ActionStatus) {
    s in {Executing, Unknown, Reconciling, Succeeded, Failed, Conflict}
  }

  /** An immutable approving decision exists for exactly this payload. */
  predicate HasGrant(approvals: map<Id, ApprovalDecision>, id: Id, payload: Payload) {
    exists c :: c in approvals && approvals[c].request == id && approvals[c].granted && approvals[c].payload == payload
  }

  function PolicyRefusal(db: Db, id: Id, a: Action): Option<ExecError> {
    match a.outcome
    case Allow => if a.status.Allowed? || Retryable(a.status) then None else Some(NotCurrentlyAllowed)
    case RequireApproval =>
      if a.approval.NotNeeded? || !a.approval.status.Granted? then Some(NotApproved)
      else if a.approval.expiresAt.Some? && a.approval.expiresAt.value <= db.clock then Some(ApprovalExpired)
      else if !HasGrant(db.approvals, id, a.payload) then Some(DecisionMissing)
      else if !(a.status.Approved? || Retryable(a.status)) then Some(NoLongerExecutable)
      else None
    case Deny => Some(PolicyDenied)
  }

  /** _load_authorized_action, with the tenant and process deployment checks around it. */
  function Refusal(db: Db, deployment: Deployment, p: Id, id: Id, revision: nat, needActive: bool): Option<ExecError> {
    if db.deployment != deployment || (needActive && !db.active) then Some(TenantDenied)
    else if id !in db.actions || db.actions[id].process != p || p !in db.processes || revision != 1
    then Some(ActionNotFound)
    else if db.processes[p].IsClosed() then Some(Closed)
    else
      var denied := PolicyRefusal(db, id, db.actions[id]);
      if denied.Some? then denied
      else if db.processes[p].deployment != deployment then Some(OtherDeployment)
      else None
  }

  // ---------------------------------------------------------- transactions

  function WithStatus(db: Db, id: Id, status: ActionStatus): map<Id, Action>
    requires id in db.actions
  {
    db.actions[id := db.actions[id].(status := status)]
  }

  /** The request and its attempt change together. */
  function WithBoth(db: Db, id: Id, status: ActionStatus, attempt: Attempt): Db
    requires id in db.actions
  {
    db.(attempts := db.attempts[KeyOf(id, db.actions[id]) := attempt], actions := WithStatus(db, id, status))
  }

  datatype Reservation = AlreadyFinal | NewAttempt | OldAttempt

  /** Reserve the attempt row of a key; at most one caller ever inserts it. */
  function Reserve(db: Db, deployment: Deployment, adapter: Id, p: Id, id: Id, revision: nat)
    : Result<(Db, Reservation), ExecError>
  {
    var refusal := Refusal(db, deployment, p, id, revision, true);
    if refusal.Some? then Err(refusal.value)
    else
      var key := KeyOf(id, db.actions[id]);
      if key !in db.attempts then
        Ok((WithBoth(db, id, Executing, Attempt(adapter, Executing, Option.None)), NewAttempt))
      else if db.attempts[key].adapter != adapter then Err(AdapterChanged)
      else if IsFinal(db.attempts[key].status) then Ok((db, AlreadyFinal))
      else Ok((db.(actions := WithStatus(db, id, Executing)), OldAttempt))
  }

  datatype Verdict = MayCall | Blocked

  predicate BreakerStops(db: Db, p: Id, id: Id, breakers: Breakers)
    requires p in db.processes && id in db.actions
  {
    var actionType := db.actions[id].payload.actionType;
    breakers.all || actionType in breakers.capabilities ||
    (actionType in db.processes[p].definition.comms.outboundTypes && breakers.outbound)
  }

  /** The second authorization, held across the provider call. It writes nothing. */
  function Cross(db: Db, deployment: Deployment, p: Id, id: Id, revision: nat, breakers: Breakers)
    : Result<Verdict, ExecError>
  {
    var refusal := Refusal(db, deployment, p, id, revision, true);
    if refusal.Some? then Err(refusal.value)
    else
      var policy := db.processes[p].definition.comms;
      if Expired(db, p) then Ok(Blocked)
      else if db.actions[id].payload.actionType !in policy.outboundTypes then
        Ok(if BreakerStops(db, p, id, breakers) then Blocked else MayCall)
      else if !IsReserved(db.actions[id].status) then Err(NotReserved)
      else if !Communications.Allowed(policy, Inspect(db, p, Some(id)), db.clock) then Ok(Blocked)
      else Ok(if BreakerStops(db, p, id, breakers) then Blocked else MayCall)
  }

  /** _record_terminal: a final attempt is returned as it is. */
  function Record(db: Db, key: Key, status: ActionStatus, effect: Option<Effect>): Db {
    if key !in db.attempts || key.request !in db.actions || IsFinal(db.attempts[key].status) then db
    else db.(attempts := db.attempts[key := db.attempts[key].(status := status, effect := effect)],
             actions := WithStatus(db, key.request, status))
  }

  /** The first transaction of reconciliation; true when the attempt is final already. */
  function StartReconcile(db: Db, deployment: Deployment, p: Id, id: Id, revision: nat): Result<(Db, bool), ExecError> {
    var refusal := Refusal(db, deployment, p, id, revision, false);
    if refusal.Some? then Err(refusal.value)
    else
      var key := KeyOf(id, db.actions[id]);
      if key !in db.attempts then Err(NoAttempt)
      else if IsFinal(db.attempts[key].status) then Ok((db, true))
      else Ok((WithBoth(db, id, Reconciling, db.attempts[key].(status := Reconciling)), false))
  }

  // ----------------------------------------------------------- the provider

  /** What a caller learns from the provider. */
  datatype Outcome = Success(effect: Effect) | Conflicting(effect: Effect) | DefiniteFailure | Uncertain

  /** What a provider may do with a request it has no stored outcome for. */
  datatype Choice =
    | Accept(effect: Effect)
    | AcceptUnseen(effect: Effect)
    | Decline(effect: Effect)
    | RaiseFailure
    | RaiseAmbiguous
  {
    predicate Sensible() {
      ((Accept? || AcceptUnseen?) ==> effect.Accepted?) && (Decline? ==> effect.Conflicted?)
    }
  }

  function OutcomeOf(e: Effect): Outcome {
    if e.Accepted? then Success(e) else Conflicting(e)
  }

  /** The effects after a call: a stored outcome is repeated, never made again. */
  function Stores(stored: map<Key, Effect>, key: Key, choice: Choice): map<Key, Effect> {
    if key in stored || choice.RaiseFailure? || choice.RaiseAmbiguous? then stored else stored[key := choice.effect]
  }

  function Answers(stored: map<Key, Effect>, key: Key, choice: Choice): Outcome {
    if key in stored then OutcomeOf(stored[key])
    else
      match choice
      case Accept(e) => Success(e)
      case Decline(e) => Conflicting(e)
      case RaiseFailure => DefiniteFailure
      case _ => Uncertain
  }

  function StatusOf(o: Outcome): ActionStatus {
    match o
    case Success(_) => Succeeded
    case Conflicting(_) => Conflict
    case DefiniteFailure => Failed
    case Uncertain => Unknown
  }

  function EffectOf(o: Outcome): Option<Effect> {
    match o
    case Success(e) => Some(e)
    case Conflicting(e) => Some(e)
    case _ => Option.None
  }

  /** What a status and effect claim about a key is what the provider stored. */
  predicate Truthful(stored: map<Key, Effect>, k: Key, status: ActionStatus, effect: Option<Effect>) {
    match status
    case Succeeded => k in stored && stored[k].Accepted? && effect == Some(stored[k])
    case Conflict => k in stored && stored[k].Conflicted? && effect == Some(stored[k])
    case Failed => k !in stored
    case _ => true
  }

  /** What an execution is about to record. */
  datatype Report = Report(status: ActionStatus, effect: Option<Effect>)

  /** An execution or reconciliation run to its end: the database and the provider's outcomes it
      leaves, the calls it made, and what it answers. */
  datatype Ended = Ended(db: Db, stored: map<Key, Effect>, calls: seq<Key>, answer: Result<Report, ExecError>)

  /** The last transaction writes the report and returns it. */
  function Reported(db: Db, stored: map<Key, Effect>, calls: seq<Key>, key: Key, report: Report): Ended {
    Ended(Record(db, key, report.status, report.effect), stored, calls, Ok(report))
  }

  /** What a lookup that finds an outcome reports. */
  function ReportOf(e: Effect): Report { Report(StatusOf(OutcomeOf(e)), Some(e)) }

  /** From the second authorization on. */
  function CrossedOver(db: Db, stored: map<Key, Effect>, choice: Choice, release: Deployment, p: Id, id: Id,
                       revision: nat, breakers: Breakers, key: Key): Ended
  {
    match Cross(db, release, p, id, revision, breakers)
    case Err(e) => Ended(db, stored, [], Err(e))
    case Ok(Blocked) => Reported(db, stored, [], key, Report(Failed, Option.None))
    case Ok(MayCall) =>
      var outcome := Answers(stored, key, choice);
      Reported(db, Stores(stored, key, choice), [key], key, Report(StatusOf(outcome), EffectOf(outcome)))
  }

  /** execute without crash or interference, on a provider that would answer `choice`. */
  function Executed(db: Db, stored: map<Key, Effect>, choice: Choice, idempotent: bool, adapter: Id,
                    release: Deployment, p: Id, id: Id, revision: nat, breakers: Breakers): Ended
  {
    match Reserve(db, release, adapter, p, id, revision)
    case Err(e) => Ended(db, stored, [], Err(e))
    case Ok((after, kind)) =>
      if id !in db.actions then Ended(db, stored, [], Err(ActionNotFound))
      else
        var key := KeyOf(id, db.actions[id]);
        if kind.AlreadyFinal? && key in db.attempts then
          Ended(after, stored, [], Ok(Report(db.attempts[key].status, db.attempts[key].effect)))
        else if kind.OldAttempt? && key in stored then Reported(after, stored, [], key, ReportOf(stored[key]))
        else if kind.OldAttempt? && !idempotent then Reported(after, stored, [], key, Report(Unknown, Option.None))
        else CrossedOver(after, stored, choice, release, p, id, revision, breakers, key)
  }

  /** reconcile without crash or interference: a lookup and nothing else. */
  function Reconciliation(db: Db, stored: map<Key, Effect>, release: Deployment, p: Id, id: Id, revision: nat): Ended {
    match StartReconcile(db, release, p, id, revision)
    case Err(e) => Ended(db, stored, [], Err(e))
    case Ok((after, final)) =>
      if id !in db.actions then Ended(db, stored, [], Err(ActionNotFound))
      else
        var key := KeyOf(id, db.actions[id]);
        if final && key in db.attempts then
          Ended(after, stored, [], Ok(Report(db.attempts[key].status, db.attempts[key].effect)))
        else
          Reported(after, stored, [], key,
                   if key in stored then ReportOf(stored[key]) else Report(Unknown, Option.None))
  }

  /** adapters/stubs/actions.py StubActionAdapter. */
  class StubActionAdapter {
    var outcomes: seq<Choice>
    var results: map<Key, Effect>
    var conflicts: map<Key, Effect>
    var requests: seq<Key>

    ghost predicate Valid()
      reads this
    {
      && results.Keys !! conflicts.Keys
      && (forall k :: k in results ==> results[k].Accepted?)
      && (forall k :: k in conflicts ==> conflicts[k].Conflicted?)
      && (forall i :: 0 <= i < |outcomes| ==> outcomes[i].Sensible())
    }

    ghost function Stored(): map<Key, Effect>
      reads this
    {
      results + conflicts
    }

    ghost function NextChoice(): Choice
      reads this
    {
      if outcomes != [] then outcomes[0] else Accept(Accepted("stub", []))
    }

    constructor (outcomes: seq<Choice>)
      requires forall i :: 0 <= i < |outcomes| ==> outcomes[i].Sensible()
      ensures Valid() && Stored() == map[] && requests == [] && this.outcomes == outcomes
    {
      this.outcomes, results, conflicts, requests := outcomes, map[], map[], [];
    }

    /** A known key gets its stored outcome again and uses up no scripted one. */
    method Execute(key: Key) returns (o: Outcome)
      requires Valid()
      modifies this
      ensures Valid() && requests == old(requests) + [key]
      ensures o == Answers(old(Stored()), key, old(NextChoice()))
      ensures Stored() == Stores(old(Stored()), key, old(NextChoice()))
      ensures key in old(Stored()) ==> outcomes == old(outcomes)
    {
      requests := requests + [key];
      if key in results { return Success(results[key]); }
      if key in conflicts { return Conflicting(conflicts[key]); }
      var outcome := Accept(Accepted("stub", []));
      if outcomes != [] {
        outcome, outcomes := outcomes[0], outcomes[1..];
      }
      match outcome {
        case Accept(e) => results := results[key := e]; o := Success(e);
        case AcceptUnseen(e) => results := results[key := e]; o := Uncertain;
        case Decline(e) => conflicts := conflicts[key := e]; o := Conflicting(e);
        case RaiseFailure => o := DefiniteFailure;
        case RaiseAmbiguous => o := Uncertain;
      }
    }

    method Lookup(key: Key) returns (r: Option<Effect>)
      requires Valid()
      ensures r == if key in Stored() then Some(Stored()[key]) else Option.None
    {
      if key in results { return Some(results[key]); }
      if key in conflicts { return Some(conflicts[key]); }
      r := Option.None;
    }
  }

  /** However often and with whatever choices a provider is called, its effects only grow and
      the outcome of a key is fixed by the first call that stores one. */
  lemma StoredOutcomeIsFixed(stored: map<Key, Effect>, key: Key, other: Key, choice: Choice)
    requires key in stored
    ensures key in Stores(stored, other, choice) && Stores(stored, other, choice)[key] == stored[key]
    ensures Answers(stored, key, choice) == OutcomeOf(stored[key])
  {}

  // --------------------------------------------------------- what it answers

  /** The request and process an execution names, under its only revision. */
  ghost predicate FindsAction(db: Db, p: Id, id: Id, revision: nat) {
    p in db.processes && id in db.actions && db.actions[id].process == p && revision == 1
  }

  /** What each refusal of an authorization says about the rows. Only a new execution, not a
      reconciliation, needs the tenant to be active. */
  ghost predicate AuthorizationRefused(db: Db, release: Deployment, p: Id, id: Id, revision: nat, needActive: bool,
                                       e: ExecError)
  {
    match e
    case TenantDenied => db.deployment != release || (needActive && !db.active)
    case ActionNotFound => !FindsAction(db, p, id, revision)
    case Closed =>
      FindsAction(db, p, id, revision) && db.processes[p].status in {Paused, Completed, Cancelled, ProcessFailed}
    case OtherDeployment => FindsAction(db, p, id, revision) && db.processes[p].deployment != release
    case PolicyDenied => FindsAction(db, p, id, revision) && db.actions[id].outcome.Deny?
    case NotCurrentlyAllowed =>
      && FindsAction(db, p, id, revision) && db.actions[id].outcome.Allow?
      && db.actions[id].status in {Denied, PendingApproval, Approved, Rejected, Superseded}
    case NotApproved =>
      && FindsAction(db, p, id, revision) && db.actions[id].outcome.RequireApproval?
      && !(db.actions[id].approval.Approval? && db.actions[id].approval.status == Granted)
    case ApprovalExpired =>
      && FindsAction(db, p, id, revision) && db.actions[id].outcome.RequireApproval? && db.actions[id].approval.Approval?
      && db.actions[id].approval.expiresAt.Some? && db.clock >= db.actions[id].approval.expiresAt.value
    case DecisionMissing =>
      && FindsAction(db, p, id, revision) && db.actions[id].outcome.RequireApproval?
      && forall c :: c in db.approvals ==>
           db.approvals[c].request != id || !db.approvals[c].granted ||
           db.approvals[c].payload != db.actions[id].payload
    case NoLongerExecutable =>
      && FindsAction(db, p, id, revision) && db.actions[id].outcome.RequireApproval?
      && db.actions[id].status in {Allowed, Denied, PendingApproval, Rejected, Superseded}
    case _ => false
  }

  lemma RetryableExactly(s: ActionStatus)
    ensures Retryable(s) <==> s !in {Allowed, Denied, PendingApproval, Approved, Rejected, Superseded}
  {
    match s {
      case Allowed => case Denied => case PendingApproval => case Approved => case Rejected => case Superseded =>
      case Executing => case Succeeded => case Failed => case Conflict => case Unknown => case Reconciling =>
    }
  }

  /** An authorization is refused exactly for a reason that its refusal names. */
  lemma AuthorizationAnswers(db: Db, release: Deployment, p: Id, id: Id, revision: nat, needActive: bool)
    ensures match Refusal(db, release, p, id, revision, needActive)
            case Some(e) => AuthorizationRefused(db, release, p, id, revision, needActive, e)
            case None => forall e :: !AuthorizationRefused(db, release, p, id, revision, needActive, e)
  {
    hide Retryable;
    if id in db.actions { RetryableExactly(db.actions[id].status); }
  }

  /** A reservation needs the authorization and the attempt's own adapter. It inserts an attempt
      in flight if there is none, leaves a final one alone, and otherwise only sets the request
      in flight again. */
  lemma ReserveAnswers(db: Db, release: Deployment, adapter: Id, p: Id, id: Id, revision: nat)
    ensures match Reserve(db, release, adapter, p, id, revision)
            case Err(e) =>
              || AuthorizationRefused(db, release, p, id, revision, true, e)
              || (e.AdapterChanged? && FindsAction(db, p, id, revision) &&
                  KeyOf(id, db.actions[id]) in db.attempts && db.attempts[KeyOf(id, db.actions[id])].adapter != adapter)
            case Ok((after, kind)) =>
              && (forall e :: !AuthorizationRefused(db, release, p, id, revision, true, e))
              && FindsAction(db, p, id, revision)
              && var k := Key(p, id, 1, db.actions[id].payload);
                 if k !in db.attempts then
                   kind.NewAttempt? &&
                   after == db.(attempts := db.attempts[k := Attempt(adapter, Executing, Option.None)],
                                actions := db.actions[id := db.actions[id].(status := Executing)])
                 else
                   && db.attempts[k].adapter == adapter
                   && if db.attempts[k].status in {Succeeded, Failed, ActionStatus.Conflict}
                      then kind.AlreadyFinal? && after == db
                      else kind.OldAttempt? &&
                           after == db.(actions := db.actions[id := db.actions[id].(status := Executing)])
  {
    hide Refusal, AuthorizationRefused;
    AuthorizationAnswers(db, release, p, id, revision, true);
    if Refusal(db, release, p, id, revision, true).None? { AuthorizedIsFound(db, release, p, id, revision, true); }
  }

  lemma AuthorizedIsFound(db: Db, release: Deployment, p: Id, id: Id, revision: nat, needActive: bool)
    requires Refusal(db, release, p, id, revision, needActive).None?
    ensures FindsAction(db, p, id, revision)
  {}

  /** Why a crossing is held back although it is authorized. */
  ghost predicate HeldBack(db: Db, p: Id, id: Id, breakers: Breakers)
    requires p in db.processes && id in db.actions
  {
    var comms, actionType := db.processes[p].definition.comms, db.actions[id].payload.actionType;
    || db.clock >= db.processes[p].createdAt + comms.lifetime
    || (actionType in comms.outboundTypes && !Communications.Allowed(comms, Inspect(db, p, Some(id)), db.clock))
    || breakers.all || actionType in breakers.capabilities || (actionType in comms.outboundTypes && breakers.outbound)
  }

  /** A crossing needs the authorization. It is blocked exactly by the end of the process, the
      contact policy for a message, or a breaker that concerns it, and otherwise may call. A
      message that lost its place in the budget is an error, unless the process ended. */
  lemma CrossAnswers(db: Db, release: Deployment, p: Id, id: Id, revision: nat, breakers: Breakers)
    ensures match Cross(db, release, p, id, revision, breakers)
            case Err(e) =>
              || AuthorizationRefused(db, release, p, id, revision, true, e)
              || (e.NotReserved? && FindsAction(db, p, id, revision) &&
                  db.actions[id].payload.actionType in db.processes[p].definition.comms.outboundTypes &&
                  db.actions[id].status in {Denied, Rejected, Superseded, Failed, ActionStatus.Conflict})
            case Ok(verdict) =>
              && (forall e :: !AuthorizationRefused(db, release, p, id, revision, true, e))
              && FindsAction(db, p, id, revision)
              && (verdict.Blocked? <==> HeldBack(db, p, id, breakers))
              && (verdict.MayCall? && db.actions[id].payload.actionType in db.processes[p].definition.comms.outboundTypes ==>
                    db.actions[id].status !in {Denied, Rejected, Superseded, Failed, ActionStatus.Conflict})
  {
    hide Refusal, AuthorizationRefused, Inspect, Communications.Allowed, IsReserved;
    AuthorizationAnswers(db, release, p, id, revision, true);
    if Refusal(db, release, p, id, revision, true).None? {
      AuthorizedIsFound(db, release, p, id, revision, true);
      KeepsPlaceExactly(db.actions[id].status);
    }
  }

  /** Recording leaves a final attempt alone and otherwise gives attempt and request the outcome. */
  lemma RecordAnswers(db: Db, key: Key, status: ActionStatus, effect: Option<Effect>)
    ensures Record(db, key, status, effect) ==
            if key in db.attempts && key.request in db.actions &&
               db.attempts[key].status !in {Succeeded, Failed, ActionStatus.Conflict}
            then db.(attempts := db.attempts[key := Attempt(db.attempts[key].adapter, status, effect)],
                     actions := db.actions[key.request := db.actions[key.request].(status := status)])
            else db
  {}

  /** A reconciliation needs an attempt; it sets attempt and request reconciling unless the attempt
      is final. */
  lemma ReconcileAnswers(db: Db, release: Deployment, p: Id, id: Id, revision: nat)
    ensures match StartReconcile(db, release, p, id, revision)
            case Err(e) =>
              || AuthorizationRefused(db, release, p, id, revision, false, e)
              || (e.NoAttempt? && FindsAction(db, p, id, revision) && KeyOf(id, db.actions[id]) !in db.attempts)
            case Ok((after, final)) =>
              && (forall e :: !AuthorizationRefused(db, release, p, id, revision, false, e))
              && FindsAction(db, p, id, revision)
              && var k := Key(p, id, 1, db.actions[id].payload);
                 && k in db.attempts
                 && (final <==> db.attempts[k].status in {Succeeded, Failed, ActionStatus.Conflict})
                 && after ==
                    if final then db
                    else db.(attempts := db.attempts[k := db.attempts[k].(status := Reconciling)],
                             actions := db.actions[id := db.actions[id].(status := Reconciling)])
  {
    hide Refusal, AuthorizationRefused;
    AuthorizationAnswers(db, release, p, id, revision, false);
    if Refusal(db, release, p, id, revision, false).None? { AuthorizedIsFound(db, release, p, id, revision, false); }
  }

  // ----------------------------------------------------- what is recorded

  /** What a call is recorded as. A known key gets its stored outcome again; otherwise accepted,
      unseen, declined, failed and ambiguous requests are told apart, and an effect is stored in
      the first three cases, seen or not. */
  lemma CallIsRecorded(stored: map<Key, Effect>, key: Key, choice: Choice)
    requires choice.Sensible()
    ensures var outcome, after := Answers(stored, key, choice), Stores(stored, key, choice);
            var recorded := (StatusOf(outcome), EffectOf(outcome));
            if key in stored then
              after == stored &&
              recorded == (if stored[key].Accepted? then Succeeded else ActionStatus.Conflict, Some(stored[key]))
            else
              match choice
              case Accept(e) => after == stored[key := e] && recorded == (Succeeded, Some(e))
              case AcceptUnseen(e) => after == stored[key := e] && recorded == (Unknown, Option.None)
              case Decline(e) => after == stored[key := e] && recorded == (ActionStatus.Conflict, Some(e))
              case RaiseFailure => after == stored && recorded == (Failed, Option.None)
              case RaiseAmbiguous => after == stored && recorded == (Unknown, Option.None)
  {}

  /** A lookup that finds an outcome reports it. */
  lemma FoundIsReported(e: Effect)
    ensures ReportOf(e) == Report(if e.Accepted? then Succeeded else ActionStatus.Conflict, Some(e))
  {}
}
