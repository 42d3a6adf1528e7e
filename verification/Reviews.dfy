/** Human review commands and operator resolutions of unknown outcomes. */
module Reviews {
  import opened Contracts
  import opened Store
  import Outbox

  // --------------------------------------------------------------- reviews

  datatype ReviewCommand = ReviewCommand(
    id: Id, process: Id, thread: Id, request: Id, revision: nat, kind: ReviewKind,
    actor: Id, message: string, expected: Option<Payload>)

  datatype ReviewError =
    | ThreadNotFound | ProcessNotFound | ProcessClosed | TargetNotFound | StaleRevision
    | CommandReused | NoLongerPending | ApprovalExpired | PayloadMismatch

  function MessageOf(c: ReviewCommand): ReviewMessage {
    ReviewMessage(c.process, c.thread, c.kind, c.actor, c.message, c.revision)
  }

  /** What must hold of the target before any review command, new or replayed. */
  function TargetError(db: Db, c: ReviewCommand): Option<ReviewError> {
    if c.thread !in db.actions || db.actions[c.thread].process != c.process || db.actions[c.thread].approval.NotNeeded?
    then Some(ThreadNotFound)
    else if c.process !in db.processes then Some(ProcessNotFound)
    else if db.processes[c.process].IsClosed() then Some(ProcessClosed)
    else if c.request !in db.actions || db.actions[c.request].process != c.process then Some(TargetNotFound)
    else if c.request != c.thread || c.revision != 1 then Some(StaleRevision)
    else None
  }

  /** A known command must be repeated with the same content. */
  predicate SameReview(db: Db, c: ReviewCommand)
    requires c.id in db.reviews && c.thread in db.actions
  {
    db.reviews[c.id].(process := c.process) == MessageOf(c) &&
    (c.kind.Approve? ==> c.expected == Some(db.actions[c.thread].payload))
  }

  function PendingError(db: Db, c: ReviewCommand): Option<ReviewError>
    requires TargetError(db, c).None?
  {
    var approval := db.actions[c.thread].approval;
    if !approval.status.Awaiting? || !approval.thread.ThreadOpen? then Some(NoLongerPending)
    else if approval.expiresAt.Some? && approval.expiresAt.value <= db.clock then Some(ApprovalExpired)
    else if c.kind.Approve? && c.expected != Some(db.actions[c.thread].payload) then Some(PayloadMismatch)
    else None
  }

  /** The request after a review command; a comment leaves it alone. */
  function Reviewed(a: Action, kind: ReviewKind): Action
    requires a.approval.Approval?
  {
    match kind
    case Approve => a.(status := Approved, approval := a.approval.(status := Granted, thread := ThreadApproved))
    case Reject => a.(status := Rejected, approval := a.approval.(status := Refused, thread := ThreadRejected))
    case RequestRevision =>
      a.(status := Superseded, approval := a.approval.(status := Replaced, thread := RevisionRequested))
    case Comment => a
  }

  function Decisions(db: Db, c: ReviewCommand): map<Id, ApprovalDecision>
    requires c.thread in db.actions
  {
    if c.kind.Approve? || c.kind.Reject?
    then db.approvals[c.id := ApprovalDecision(c.thread, c.kind.Approve?, db.actions[c.thread].payload,
                                               c.actor, c.message)]
    else db.approvals
  }

  function Recorded(db: Db, c: ReviewCommand): (r: Db)
    requires c.thread in db.actions && db.actions[c.thread].approval.Approval?
    ensures r.outbox == db.outbox && r.clock == db.clock
  {
    db.(actions := db.actions[c.thread := Reviewed(db.actions[c.thread], c.kind)],
        approvals := Decisions(db, c),
        reviews := db.reviews[c.id := MessageOf(c)])
  }

  function AppliedReview(db: Db, c: ReviewCommand): Result<Db, ReviewError> {
    var target := TargetError(db, c);
    if target.Some? then Err(target.value)
    else if c.id in db.reviews then
      if SameReview(db, c) then Ok(db) else Err(CommandReused)
    else
      var pending := PendingError(db, c);
      if pending.Some? then Err(pending.value)
      else
        Ok(Recorded(db, c).(outbox := Enqueued(db, Outbox.ReviewKey(c.id), c.process, None)))
  }

  // ------------------------------------------------- operator resolutions

  datatype ResolveCommand = ResolveCommand(
    id: Id, process: Id, attempt: Key, actor: Id, succeeded: bool, evidence: string, reference: Option<string>)

  datatype ResolveError = AttemptNotFound | NotUnknown | DifferentDecision | IdTaken

  function ResolutionOf(c: ResolveCommand): Resolution {
    Resolution(c.id, c.actor, c.succeeded, c.evidence, c.reference)
  }

  function ResolvedStatus(succeeded: bool): ActionStatus {
    if succeeded then Succeeded else Failed
  }

  function ResolutionError(db: Db, c: ResolveCommand): Option<ResolveError> {
    if c.attempt !in db.attempts || c.attempt.process != c.process ||
       c.attempt.request !in db.actions || c.process !in db.processes then Some(AttemptNotFound)
    else if c.attempt in db.resolutions then
      if db.resolutions[c.attempt] == ResolutionOf(c) then None else Some(DifferentDecision)
    else if db.attempts[c.attempt].status !in {Unknown, Reconciling} then Some(NotUnknown)
    else if exists k :: k in db.resolutions && db.resolutions[k].id == c.id then Some(IdTaken)
    else None
  }

  function ResolvedAttempt(a: Attempt, c: ResolveCommand): Attempt {
    var facts := a.Facts();
    a.(status := ResolvedStatus(c.succeeded),
       effect := if c.reference.Some? then Some(Accepted(c.reference.value, facts)) else a.effect)
  }

  function Settled(db: Db, c: ResolveCommand): (r: Db)
    requires c.attempt in db.attempts && c.attempt.request in db.actions
    ensures r.outbox == db.outbox && r.clock == db.clock
  {
    db.(attempts := db.attempts[c.attempt := ResolvedAttempt(db.attempts[c.attempt], c)],
        actions := db.actions[c.attempt.request :=
          db.actions[c.attempt.request].(status := ResolvedStatus(c.succeeded))],
        resolutions := db.resolutions[c.attempt := ResolutionOf(c)])
  }

  /** A first resolution settles attempt and request together and wakes the process; a repeated
      one changes nothing. */
  function Resolved(db: Db, c: ResolveCommand): Result<Db, ResolveError> {
    var error := ResolutionError(db, c);
    if error.Some? then Err(error.value)
    else if c.attempt in db.resolutions then Ok(db)
    else
      Ok(Settled(db, c).(outbox := Enqueued(db, Outbox.ResolutionKey(c.id), c.process, None)))
  }

  // -------------------------------------------------------- what they answer

  ghost predicate FindsThread(db: Db, c: ReviewCommand) {
    c.thread in db.actions && db.actions[c.thread].process == c.process && db.actions[c.thread].approval.Approval?
  }

  /** What each refusal of a review command says about the rows. */
  ghost predicate ReviewRefused(db: Db, c: ReviewCommand, e: ReviewError) {
    match e
    case ThreadNotFound => !FindsThread(db, c)
    case ProcessNotFound => c.process !in db.processes
    case ProcessClosed =>
      c.process in db.processes && db.processes[c.process].status in {Paused, Completed, Cancelled, ProcessFailed}
    case TargetNotFound => c.request !in db.actions || db.actions[c.request].process != c.process
    case StaleRevision =>
      && c.request in db.actions && db.actions[c.request].process == c.process
      && (c.request != c.thread || c.revision != 1)
    case CommandReused =>
      && c.id in db.reviews && FindsThread(db, c)
      && var m := db.reviews[c.id];
         m.thread != c.thread || m.kind != c.kind || m.actor != c.actor || m.content != c.message ||
         m.revision != c.revision || (c.kind.Approve? && c.expected != Some(db.actions[c.thread].payload))
    case NoLongerPending =>
      && c.id !in db.reviews && FindsThread(db, c)
      && var approval := db.actions[c.thread].approval; approval.status != Awaiting || approval.thread != ThreadOpen
    case ApprovalExpired =>
      && c.id !in db.reviews && FindsThread(db, c)
      && db.actions[c.thread].approval.expiresAt.Some? && db.clock >= db.actions[c.thread].approval.expiresAt.value
    case PayloadMismatch =>
      && c.id !in db.reviews && FindsThread(db, c)
      && c.kind.Approve? && c.expected != Some(db.actions[c.thread].payload)
  }

  /** Request, approval and thread after a command of each kind. */
  ghost predicate ReviewedAs(before: Action, after: Action, kind: ReviewKind) {
    && before.approval.Approval? && after.approval.Approval?
    && after == before.(status := after.status, approval := after.approval)
    && after.approval.expiresAt == before.approval.expiresAt
    && var statuses := (after.status, after.approval.status, after.approval.thread);
       match kind
       case Approve => statuses == (Approved, Granted, ThreadApproved)
       case Reject => statuses == (Rejected, Refused, ThreadRejected)
       case RequestRevision => statuses == (Superseded, Replaced, RevisionRequested)
       case Comment => after == before
  }

  /** A review command is refused exactly for a reason that its refusal names. A repeated one
      changes nothing. A new one settles request, approval and thread together, keeps a decision
      for exactly the stored payload if it approves or rejects, keeps the message, and tells the
      process. */
  lemma ReviewAnswers(db: Db, c: ReviewCommand)
    ensures match AppliedReview(db, c)
            case Err(e) => ReviewRefused(db, c, e)
            case Ok(after) =>
              && (forall e :: !ReviewRefused(db, c, e))
              && if c.id in db.reviews then after == db
                 else
                   && after == db.(actions := after.actions, approvals := after.approvals, reviews := after.reviews,
                                   outbox := after.outbox)
                   && c.thread in after.actions && after.actions == db.actions[c.thread := after.actions[c.thread]]
                   && ReviewedAs(db.actions[c.thread], after.actions[c.thread], c.kind)
                   && after.approvals ==
                      (if c.kind.Approve? || c.kind.Reject?
                       then db.approvals[c.id := ApprovalDecision(c.request, c.kind.Approve?, db.actions[c.request].payload,
                                                                  c.actor, c.message)]
                       else db.approvals)
                   && after.reviews ==
                      db.reviews[c.id := ReviewMessage(c.process, c.thread, c.kind, c.actor, c.message, c.revision)]
                   && Told(db, after.outbox, Outbox.ReviewKey(c.id), c.process, None)
  {
    hide Enqueued;
    EnqueuedTells(db, Outbox.ReviewKey(c.id), c.process, None);
    if AppliedReview(db, c).Ok? { ReviewIsAccepted(db, c); }
  }

  lemma ReviewIsAccepted(db: Db, c: ReviewCommand)
    requires AppliedReview(db, c).Ok?
    ensures forall e :: !ReviewRefused(db, c, e)
  {
    hide Enqueued, Recorded;
  }

  /** What each refusal of an operator resolution says about the rows. */
  ghost predicate ResolutionRefused(db: Db, c: ResolveCommand, e: ResolveError) {
    match e
    case AttemptNotFound =>
      c.attempt !in db.attempts || c.attempt.process != c.process || c.attempt.request !in db.actions ||
      c.process !in db.processes
    case DifferentDecision =>
      && c.attempt in db.resolutions
      && db.resolutions[c.attempt] != Resolution(c.id, c.actor, c.succeeded, c.evidence, c.reference)
    case NotUnknown =>
      c.attempt !in db.resolutions && c.attempt in db.attempts &&
      db.attempts[c.attempt].status !in {Unknown, Reconciling}
    case IdTaken => c.attempt !in db.resolutions && exists k :: k in db.resolutions && db.resolutions[k].id == c.id
  }

  /** The attempt and the request of a resolution after it, which no others accompany. */
  ghost predicate SettledAs(db: Db, after: Db, c: ResolveCommand)
    requires c.attempt in db.attempts && c.attempt.request in db.actions
  {
    && c.attempt in after.attempts && after.attempts == db.attempts[c.attempt := after.attempts[c.attempt]]
    && c.attempt.request in after.actions
    && after.actions == db.actions[c.attempt.request := after.actions[c.attempt.request]]
    && var before, request := db.actions[c.attempt.request], after.actions[c.attempt.request];
       var held, attempt := db.attempts[c.attempt], after.attempts[c.attempt];
       && request == before.(status := request.status) && attempt.adapter == held.adapter
       && (c.succeeded ==> attempt.status.Succeeded? && request.status.Succeeded?)
       && (!c.succeeded ==> attempt.status.Failed? && request.status.Failed?)
       && attempt.Facts() == held.Facts()
       && (if c.reference.None? then attempt.effect == held.effect
           else attempt.effect.Some? && attempt.effect.value.Accepted? &&
                attempt.effect.value.reference == c.reference.value)
  }

  /** A resolution is refused exactly for a reason that its refusal names, and a repeated one
      changes nothing. A first one makes attempt and request succeed if the operator says so and
      fail otherwise, takes the operator's reference where there is one, keeps the facts, and
      changes no other attempt or request. */
  lemma ResolutionAnswers(db: Db, c: ResolveCommand)
    ensures match Resolved(db, c)
            case Err(e) => ResolutionRefused(db, c, e)
            case Ok(after) =>
              && (forall e :: !ResolutionRefused(db, c, e))
              && if c.attempt in db.resolutions then after == db
                 else
                   && after == db.(actions := after.actions, attempts := after.attempts, resolutions := after.resolutions,
                                   outbox := after.outbox)
                   && SettledAs(db, after, c)
                   && after.resolutions ==
                      db.resolutions[c.attempt := Resolution(c.id, c.actor, c.succeeded, c.evidence, c.reference)]
                   && Told(db, after.outbox, Outbox.ResolutionKey(c.id), c.process, None)
  {
    hide Enqueued;
    EnqueuedTells(db, Outbox.ResolutionKey(c.id), c.process, None);
  }
}
