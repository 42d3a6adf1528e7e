/** Event ingress, correlation, quarantine resolution and deployment assignment. */
module Ingestion {
  import opened Contracts
  import opened Store
  import Knowledge
  import Outbox

  // ---------------------------------------------------------------- ingest

  /** Trusted configuration of a process that a trigger may create. */
  datatype Bootstrap = Bootstrap(definition: Definition, deployment: Deployment, recordOnly: bool)

  datatype IngestError =
    | ReservedEventType | TenantNotAuthorized | TenantSuspended | TriggerReferenceRequired
    | UnsupportedLatePolicy | OwnershipChanged | IdTaken

  function IngressError(db: Db, deployment: Option<Deployment>): Option<IngestError> {
    if deployment.Some? && deployment.value != db.deployment then Some(TenantNotAuthorized)
    else if !db.active then Some(TenantSuspended)
    else None
  }

  /** The processes an event may belong to: the one it names and the owners of its references. */
  function Candidates(db: Db, e: Event): set<Id> {
    (if e.process.Some? then {e.process.value} else {}) +
    set i | 0 <= i < |e.references| && e.references[i] in db.owners :: db.owners[e.references[i]]
  }

  datatype Match = Match(process: Option<Id>, status: Correlation, reason: CorrelationReason)

  /** The only member of a set, if it has exactly one. */
  predicate IsOnly(s: set<Id>, p: Id) { s == {p} }

  function ResolveProcess(db: Db, e: Event): Match {
    if e.process.Some? && e.process.value !in db.processes then Match(None, Declined, ExplicitNotFound)
    else
      var candidates := Candidates(db, e);
      if candidates == {} then Match(None, Parked, NoMatch)
      else if exists p :: p in candidates && IsOnly(candidates, p) then
        OnlyIsUnique(candidates);
        var p :| p in candidates && IsOnly(candidates, p);
        Match(Some(p), Matched, SingleMatch)
      else Match(None, Parked, Ambiguous)
  }

  lemma OnlyIsUnique(s: set<Id>)
    ensures forall p, q | IsOnly(s, p) && IsOnly(s, q) :: p == q
  {
    forall p, q | IsOnly(s, p) && IsOnly(s, q) ensures p == q {
      assert p in s && q in {p};
    }
  }

  function NewProcess(b: Bootstrap, now: int): Process {
    Process(b.definition, b.deployment, now, b.recordOnly, Active, [], Knowledge.Empty, None, [], 0, [])
  }

  /** Bind every reference that has no owner; fail if one belongs to another process. */
  function Bound(owners: map<Reference, Id>, references: seq<Reference>, p: Id): Option<map<Reference, Id>> {
    if exists i :: 0 <= i < |references| && references[i] in owners && owners[references[i]] != p then None
    else Some(owners + map i | 0 <= i < |references| :: references[i] := p)
  }

  /** The match an event ends with: a trigger without any match creates its process. */
  function FinalMatch(db: Db, e: Event, bootstrap: Option<Bootstrap>, newId: Id): Match {
    var m := ResolveProcess(db, e);
    if m.reason.NoMatch? && bootstrap.Some? then Match(Some(newId), Matched, CreatedFromTrigger) else m
  }

  /** The database after a process was created, if the match calls for it. */
  function WithProcess(db: Db, m: Match, bootstrap: Option<Bootstrap>): Db {
    if m.reason.CreatedFromTrigger? && m.process.Some? && bootstrap.Some?
    then db.(processes := db.processes[m.process.value := NewProcess(bootstrap.value, db.clock)])
    else db
  }

  function IngestRefusal(db: Db, e: Event, bootstrap: Option<Bootstrap>, newId: Id): Option<IngestError> {
    if bootstrap.Some? && e.references == [] then Some(TriggerReferenceRequired)
    else
      var m := FinalMatch(db, e, bootstrap, newId);
      if m.reason.CreatedFromTrigger? && newId in db.processes then Some(IdTaken)
      else
        var stored := WithProcess(db, m, bootstrap);
        if m.status.Matched? && (m.process.None? || m.process.value !in stored.processes) then Some(IdTaken)
        else if m.status.Matched? && IsTerminal(stored.processes[m.process.value].status) &&
                !stored.processes[m.process.value].recordOnly then Some(UnsupportedLatePolicy)
        else if m.status.Matched? && Bound(db.owners, e.references, m.process.value).None? then Some(OwnershipChanged)
        else if e.id in db.inbox then Some(IdTaken)
        else None
  }

  /** The inbox row of a new event; events for terminal processes are only recorded. */
  function RowFor(db: Db, e: Event, m: Match): InboxRow {
    InboxRow(e, m.process, m.status,
             if m.status.Matched? && m.process.Some? && m.process.value in db.processes &&
                IsTerminal(db.processes[m.process.value].status) then TerminalRecordOnly else m.reason)
  }

  predicate Delivers(row: InboxRow) {
    row.status.Matched? && row.process.Some? && !row.reason.TerminalRecordOnly?
  }

  /** Insert a row and, when it is for a live process, its delivery. */
  function Scheduled(db: Db, row: InboxRow): map<Outbox.DedupKey, Outbox.Message> {
    if Delivers(row) then Enqueued(db, Outbox.EventKey(row.event.id), row.process.value, Some(row.event.id))
    else db.outbox
  }

  /** The database after a match created its process and bound the event's references. */
  function Correlated(db: Db, e: Event, m: Match, bootstrap: Option<Bootstrap>): Db
    requires m.status.Matched? ==> m.process.Some? && Bound(db.owners, e.references, m.process.value).Some?
  {
    WithProcess(db, m, bootstrap).(
      owners := if m.status.Matched? then Bound(db.owners, e.references, m.process.value).value else db.owners)
  }

  function Admitted(db: Db, e: Event, bootstrap: Option<Bootstrap>, newId: Id): (r: Db)
    requires IngestRefusal(db, e, bootstrap, newId).None?
  {
    var m := FinalMatch(db, e, bootstrap, newId);
    var stored := Correlated(db, e, m, bootstrap);
    Arrived(stored, RowFor(stored, e, m)).(outbox := Scheduled(stored, RowFor(stored, e, m)))
  }

  /** A known source event changes nothing; a new one is correlated, stored and scheduled. */
  function Ingested(db: Db, e: Event, bootstrap: Option<Bootstrap>, deployment: Option<Deployment>, newId: Id)
    : Result<Db, IngestError>
  {
    if e.eventType == OPERATOR_MANUAL_WAKE then Err(ReservedEventType)
    else
      var ingress := IngressError(db, deployment);
      if ingress.Some? then Err(ingress.value)
      else if (e.source, e.sourceId) in db.sources then Ok(db)
      else
        var refusal := IngestRefusal(db, e, bootstrap, newId);
        if refusal.Some? then Err(refusal.value) else Ok(Admitted(db, e, bootstrap, newId))
  }

  // ------------------------------------------------------------ quarantine

  datatype ResolveQuarantine = ResolveQuarantine(
    id: Id, event: Id, process: Id, actor: Id, reason: string, references: seq<Reference>)

  datatype QuarantineError =
    | BadReason | NotAuthorized | Suspended | CommandReused | EventNotFound | KernelEvent | ForeignReference
    | AlreadyCorrelated | ProcessNotFound | OtherDeployment | UnsupportedPolicy | OwnedElsewhere

  function ReferenceSet(references: seq<Reference>): set<Reference> {
    set i | 0 <= i < |references| :: references[i]
  }

  predicate SameQuarantine(stored: QuarantineCommand, c: ResolveQuarantine) {
    stored.event == c.event && stored.process == c.process && stored.actor == c.actor &&
    stored.reason == c.reason && stored.references == ReferenceSet(c.references)
  }

  function QuarantineRefusal(db: Db, c: ResolveQuarantine): Option<QuarantineError> {
    if c.event !in db.inbox then Some(EventNotFound)
    else
      var row := db.inbox[c.event];
      if row.event.eventType == OPERATOR_MANUAL_WAKE then Some(KernelEvent)
      else if !(ReferenceSet(c.references) <= ReferenceSet(row.event.references)) then Some(ForeignReference)
      else if row.status.Matched? || row.process.Some? then Some(AlreadyCorrelated)
      else if c.process !in db.processes then Some(ProcessNotFound)
      else if db.processes[c.process].deployment != db.deployment then Some(OtherDeployment)
      else if IsTerminal(db.processes[c.process].status) && !db.processes[c.process].recordOnly
      then Some(UnsupportedPolicy)
      else if Bound(db.owners, c.references, c.process).None? then Some(OwnedElsewhere)
      else None
  }

  function CommandOf(c: ResolveQuarantine, delivered: bool): QuarantineCommand {
    QuarantineCommand(c.event, c.process, c.actor, c.reason, ReferenceSet(c.references), delivered)
  }

  function ReleasedRow(row: InboxRow, p: Id, terminal: bool): InboxRow {
    row.(process := Some(p), status := Matched,
         reason := if terminal then TerminalRecordOnly else OperatorResolution)
  }

  function Released(db: Db, c: ResolveQuarantine): (r: Db)
    requires QuarantineRefusal(db, c).None?
  {
    var terminal := IsTerminal(db.processes[c.process].status);
    db.(owners := Bound(db.owners, c.references, c.process).value,
        commands := db.commands[c.id := CommandOf(c, !terminal)],
        inbox := db.inbox[c.event := ReleasedRow(db.inbox[c.event], c.process, terminal)],
        outbox := if terminal then db.outbox
                  else Enqueued(db, Outbox.EventKey(c.event), c.process, Some(c.event)))
  }

  function Unparked(db: Db, c: ResolveQuarantine, deployment: Option<Deployment>): Result<Db, QuarantineError> {
    if !ReasonOk(c.reason) then Err(BadReason)
    else if IngressError(db, deployment) == Some(TenantNotAuthorized) then Err(NotAuthorized)
    else if IngressError(db, deployment).Some? then Err(Suspended)
    else if c.id in db.commands then
      if SameQuarantine(db.commands[c.id], c) then Ok(db) else Err(CommandReused)
    else
      var refusal := QuarantineRefusal(db, c);
      if refusal.Some? then Err(refusal.value) else Ok(Released(db, c))
  }

  // ------------------------------------------------------------ assignment

  datatype AssignError = ReservedTarget | ReasonRequired | ActiveProcesses | OutstandingDeliveries

  predicate HasActiveProcess(db: Db) {
    exists p :: p in db.processes && !IsTerminal(db.processes[p].status)
  }

  predicate HasOutstanding(db: Db, deployment: Deployment) {
    exists k :: k in db.outbox && !db.outbox[k].status.Published? && db.outbox[k].process in db.processes &&
                db.processes[db.outbox[k].process].deployment == deployment
  }

  function Moved(db: Db, target: Deployment, reason: string): Result<Db, AssignError> {
    if target == UNASSIGNED then Err(ReservedTarget)
    else if !ReasonOk(reason) then Err(ReasonRequired)
    else if db.deployment == target then Ok(db)
    else if db.deployment != UNASSIGNED && HasActiveProcess(db) then Err(ActiveProcesses)
    else if db.deployment != UNASSIGNED && HasOutstanding(db, db.deployment) then Err(OutstandingDeliveries)
    else Ok(db.(deployment := target))
  }

  // -------------------------------------------------------- what they answer

  /** Something in the event points at a process. */
  ghost predicate PointsAt(db: Db, e: Event, p: Id) {
    e.process == Some(p) ||
    exists i :: 0 <= i < |e.references| && e.references[i] in db.owners && db.owners[e.references[i]] == p
  }

  /** An event is correlated with a process exactly when something points at it, nothing points
      at another one, and a process it names exists. Otherwise it is declined if it names a process
      that does not exist, and parked as unknown or ambiguous. */
  lemma MatchedExactly(db: Db, e: Event, p: Id)
    ensures ResolveProcess(db, e).process == Some(p) <==>
            PointsAt(db, e, p) && (forall q :: PointsAt(db, e, q) ==> q == p) &&
            (e.process.Some? ==> p in db.processes)
    ensures ResolveProcess(db, e) ==
            if ResolveProcess(db, e).process.Some? then Match(ResolveProcess(db, e).process, Matched, SingleMatch)
            else if e.process.Some? && e.process.value !in db.processes then Match(None, Declined, ExplicitNotFound)
            else if forall q :: !PointsAt(db, e, q) then Match(None, Parked, NoMatch)
            else Match(None, Parked, Ambiguous)
  {
    var s := Candidates(db, e);
    forall q ensures q in s <==> PointsAt(db, e, q) {}
    if ResolveProcess(db, e).process.Some? {
      var r := ResolveProcess(db, e).process.value;
      assert IsOnly(s, r);
    }
    if PointsAt(db, e, p) && (forall q :: PointsAt(db, e, q) ==> q == p) {
      assert s == {p} && IsOnly(s, p);
      OnlyIsUnique(s);
    }
    if s == {} { assert forall q :: q !in s; }
  }

  /** References that have no owner get this one; the others must have it already. */
  lemma BoundExactly(owners: map<Reference, Id>, references: seq<Reference>, p: Id)
    ensures var r := Bound(owners, references, p);
            && (r.None? <==> exists i :: 0 <= i < |references| && references[i] in owners && owners[references[i]] != p)
            && (r.Some? ==>
                  (forall x :: x in r.value <==> x in owners || x in references) &&
                  (forall x :: x in r.value ==> r.value[x] == if x in owners then owners[x] else p))
  {}

  /** The process that a trigger opens. */
  ghost predicate Opened(db: Db, b: Bootstrap, process: Process) {
    && process.definition == b.definition && process.deployment == b.deployment && process.recordOnly == b.recordOnly
    && process.createdAt == db.clock && process.status.Active? && process.wakes == []
    && process.facts == Knowledge.Projection(map[], map[], map[]) && process.summary == None
    && process.commitments == [] && process.stateVersion == 0 && process.history == []
  }

  /** The event has no process yet and its trigger may open one. */
  ghost predicate Opens(db: Db, e: Event, bootstrap: Option<Bootstrap>) {
    bootstrap.Some? && e.process.None? && forall q :: !PointsAt(db, e, q)
  }

  lemma OpensExactly(db: Db, e: Event, bootstrap: Option<Bootstrap>, newId: Id)
    ensures var m := FinalMatch(db, e, bootstrap, newId);
            if Opens(db, e, bootstrap)
            then m == Match(Some(newId), Matched, CreatedFromTrigger) && bootstrap.Some? && ResolveProcess(db, e).process.None?
            else m == ResolveProcess(db, e) && !m.reason.CreatedFromTrigger?
  {
    hide ResolveProcess;
    MatchedExactly(db, e, 0);
    if e.process.Some? { assert PointsAt(db, e, e.process.value); }
    if ResolveProcess(db, e).process.Some? { MatchedExactly(db, e, ResolveProcess(db, e).process.value); }
  }

  /** What each refusal of an event says. */
  ghost predicate EventRefused(db: Db, e: Event, bootstrap: Option<Bootstrap>, deployment: Option<Deployment>, newId: Id,
                               error: IngestError)
  {
    var known := (e.source, e.sourceId) in db.sources;
    var m := ResolveProcess(db, e);
    match error
    case ReservedEventType => e.eventType == OPERATOR_MANUAL_WAKE
    case TenantNotAuthorized => deployment.Some? && deployment.value != db.deployment
    case TenantSuspended => !db.active
    case TriggerReferenceRequired => !known && bootstrap.Some? && e.references == []
    case UnsupportedLatePolicy =>
      && !known && m.process.Some? && m.process.value in db.processes
      && db.processes[m.process.value].status in {Completed, Cancelled, ProcessFailed}
      && !db.processes[m.process.value].recordOnly
    case OwnershipChanged => false
    case IdTaken =>
      !known && (e.id in db.inbox || (Opens(db, e, bootstrap) && newId in db.processes) ||
                 (m.process.Some? && m.process.value !in db.processes))
  }

  /** The row of a new event. An event for a terminal process is only recorded. */
  ghost predicate FiledAs(db: Db, e: Event, bootstrap: Option<Bootstrap>, newId: Id, row: InboxRow) {
    row.event == e &&
    if Opens(db, e, bootstrap) then row == InboxRow(e, Some(newId), Matched, CreatedFromTrigger)
    else
      var m := ResolveProcess(db, e);
      && row.process == m.process && row.status == m.status
      && (if m.process.Some? && m.process.value in db.processes &&
             db.processes[m.process.value].status in {Completed, Cancelled, ProcessFailed}
          then row.reason == TerminalRecordOnly else row.reason == m.reason)
  }

  /** What an accepted new event leaves behind. */
  ghost predicate Files(db: Db, after: Db, e: Event, bootstrap: Option<Bootstrap>, newId: Id) {
    && e.id in after.inbox && var row := after.inbox[e.id];
       && after.inbox == db.inbox[e.id := row] && after.arrivals == db.arrivals + [e.id]
       && after.sources == db.sources[(e.source, e.sourceId) := e.id]
       && FiledAs(db, e, bootstrap, newId, row)
       && (if Opens(db, e, bootstrap)
           then newId in after.processes && after.processes == db.processes[newId := after.processes[newId]] &&
                Opened(db, bootstrap.value, after.processes[newId])
           else after.processes == db.processes)
       && (if row.status.Matched? && row.process.Some?
           then Bound(db.owners, e.references, row.process.value) == Some(after.owners)
           else after.owners == db.owners)
       && (if row.status.Matched? && row.process.Some? && !row.reason.TerminalRecordOnly?
           then Told(db, after.outbox, Outbox.EventKey(e.id), row.process.value, Some(e.id))
           else after.outbox == db.outbox)
  }

  ghost predicate WorkUntouched(db: Db, after: Db) {
    && after.clock == db.clock && after.active == db.active && after.deployment == db.deployment
    && after.actions == db.actions && after.order == db.order && after.slots == db.slots
    && after.attempts == db.attempts && after.approvals == db.approvals && after.reviews == db.reviews
    && after.resolutions == db.resolutions && after.interventions == db.interventions && after.controls == db.controls
  }

  /** No reference of a matched event belongs to another process. */
  lemma MatchOwnsReferences(db: Db, e: Event, bootstrap: Option<Bootstrap>, newId: Id)
    requires FinalMatch(db, e, bootstrap, newId).process.Some?
    ensures Bound(db.owners, e.references, FinalMatch(db, e, bootstrap, newId).process.value).Some?
  {
    var p := FinalMatch(db, e, bootstrap, newId).process.value;
    forall i | 0 <= i < |e.references| && e.references[i] in db.owners
      ensures db.owners[e.references[i]] == p
    {
      assert db.owners[e.references[i]] in Candidates(db, e);
    }
  }

  lemma RefusedEvents(db: Db, e: Event, bootstrap: Option<Bootstrap>, newId: Id)
    requires (e.source, e.sourceId) !in db.sources && e.eventType != OPERATOR_MANUAL_WAKE && db.active
    ensures match IngestRefusal(db, e, bootstrap, newId)
            case Some(error) => EventRefused(db, e, bootstrap, None, newId, error)
            case None => forall error :: !EventRefused(db, e, bootstrap, None, newId, error)
  {
    hide ResolveProcess, Opens, FinalMatch, Bound;
    OpensExactly(db, e, bootstrap, newId);
    MatchedExactly(db, e, 0);
    if FinalMatch(db, e, bootstrap, newId).process.Some? { MatchOwnsReferences(db, e, bootstrap, newId); }
  }

  lemma OpenedFiles(db: Db, m: Match, bootstrap: Option<Bootstrap>)
    ensures var after := WithProcess(db, m, bootstrap);
            && after == db.(processes := after.processes)
            && (if m.reason.CreatedFromTrigger? && m.process.Some? && bootstrap.Some?
                then m.process.value in after.processes &&
                     after.processes == db.processes[m.process.value := after.processes[m.process.value]] &&
                     Opened(db, bootstrap.value, after.processes[m.process.value])
                else after.processes == db.processes)
  {}

  lemma CorrelatedFiles(db: Db, e: Event, m: Match, bootstrap: Option<Bootstrap>)
    requires m.status.Matched? ==> m.process.Some? && Bound(db.owners, e.references, m.process.value).Some?
    ensures var after := Correlated(db, e, m, bootstrap);
            && WorkUntouched(db, after) && after.commands == db.commands && after.outbox == db.outbox
            && after.inbox == db.inbox && after.arrivals == db.arrivals && after.sources == db.sources
            && after.processes == WithProcess(db, m, bootstrap).processes
            && (if m.status.Matched? then Bound(db.owners, e.references, m.process.value) == Some(after.owners)
                else after.owners == db.owners)
  {
    hide Bound, WithProcess;
    OpenedFiles(db, m, bootstrap);
  }

  lemma ArrivedFiles(db: Db, row: InboxRow)
    ensures var after := Arrived(db, row).(outbox := Scheduled(db, row));
            && WorkUntouched(db, after) && after.commands == db.commands && after.owners == db.owners
            && after.processes == db.processes
            && after.inbox == db.inbox[row.event.id := row] && after.arrivals == db.arrivals + [row.event.id]
            && after.sources == db.sources[(row.event.source, row.event.sourceId) := row.event.id]
            && after.outbox ==
               (if row.status.Matched? && row.process.Some? && !row.reason.TerminalRecordOnly?
                then Enqueued(db, Outbox.EventKey(row.event.id), row.process.value, Some(row.event.id)) else db.outbox)
  {
    hide Enqueued;
  }

  lemma RowIsFiled(db: Db, e: Event, bootstrap: Option<Bootstrap>, newId: Id, stored: Db)
    requires stored.processes == WithProcess(db, FinalMatch(db, e, bootstrap, newId), bootstrap).processes
    ensures FiledAs(db, e, bootstrap, newId, RowFor(stored, e, FinalMatch(db, e, bootstrap, newId)))
    ensures if Opens(db, e, bootstrap)
            then newId in stored.processes && stored.processes == db.processes[newId := stored.processes[newId]] &&
                 bootstrap.Some? && Opened(db, bootstrap.value, stored.processes[newId])
            else stored.processes == db.processes
  {
    hide ResolveProcess, Opens, FinalMatch;
    OpensExactly(db, e, bootstrap, newId);
    MatchedExactly(db, e, 0);
  }

  lemma AdmittedFiles(db: Db, e: Event, bootstrap: Option<Bootstrap>, newId: Id)
    requires IngestRefusal(db, e, bootstrap, newId).None?
    ensures var after := Admitted(db, e, bootstrap, newId);
            WorkUntouched(db, after) && after.commands == db.commands && Files(db, after, e, bootstrap, newId)
  {
    hide ResolveProcess, Opens, FinalMatch, Bound, Enqueued, Told, Correlated, Arrived, Scheduled, FiledAs, Opened,
         IngestRefusal, WithProcess, RowFor;
    var m := FinalMatch(db, e, bootstrap, newId);
    MatchFits(db, e, bootstrap, newId);
    var stored := Correlated(db, e, m, bootstrap);
    CorrelatedFiles(db, e, m, bootstrap);
    RowIsFiled(db, e, bootstrap, newId, stored);
    var row := RowFor(stored, e, m);
    RowIsOfMatch(stored, e, m);
    ArrivedFiles(stored, row);
    if row.process.Some? {
      EnqueuedTells(db, Outbox.EventKey(e.id), row.process.value, Some(e.id));
      EnqueuedAfter(db, stored, Outbox.EventKey(e.id), row.process.value, Some(e.id));
    }
  }

  lemma RowIsOfMatch(db: Db, e: Event, m: Match)
    ensures var row := RowFor(db, e, m); row.event == e && row.process == m.process && row.status == m.status
  {}

  /** A match has a process, whose references are free for it. */
  lemma MatchFits(db: Db, e: Event, bootstrap: Option<Bootstrap>, newId: Id)
    ensures var m := FinalMatch(db, e, bootstrap, newId);
            m.status.Matched? <==> m.process.Some?
    ensures var m := FinalMatch(db, e, bootstrap, newId);
            m.process.Some? ==> Bound(db.owners, e.references, m.process.value).Some?
  {
    hide Bound;
    if FinalMatch(db, e, bootstrap, newId).process.Some? { MatchOwnsReferences(db, e, bootstrap, newId); }
  }

  /** The outbox is read as it was before the correlation. */
  lemma EnqueuedAfter(db: Db, mid: Db, key: Outbox.DedupKey, p: Id, cause: Option<Id>)
    requires mid.outbox == db.outbox && mid.clock == db.clock
    ensures Enqueued(mid, key, p, cause) == Enqueued(db, key, p, cause)
  {}

  /** An event is refused exactly for a reason that its refusal names, and a known one changes
      nothing. A new one is filed under its identities with its correlation, opens a process if its
      trigger may, binds its references, and is delivered if its process is live. */
  lemma EventAnswers(db: Db, e: Event, bootstrap: Option<Bootstrap>, deployment: Option<Deployment>, newId: Id)
    ensures match Ingested(db, e, bootstrap, deployment, newId)
            case Err(error) => EventRefused(db, e, bootstrap, deployment, newId, error)
            case Ok(after) =>
              && (forall error :: !EventRefused(db, e, bootstrap, deployment, newId, error))
              && if (e.source, e.sourceId) in db.sources then after == db
                 else WorkUntouched(db, after) && after.commands == db.commands && Files(db, after, e, bootstrap, newId)
  {
    hide ResolveProcess, Opens, IngestRefusal, Admitted, Files;
    if e.eventType != OPERATOR_MANUAL_WAKE && db.active && (e.source, e.sourceId) !in db.sources {
      RefusedEvents(db, e, bootstrap, newId);
      forall error ensures
        EventRefused(db, e, bootstrap, deployment, newId, error) <==>
        EventRefused(db, e, bootstrap, None, newId, error) ||
        (error.TenantNotAuthorized? && deployment.Some? && deployment.value != db.deployment)
      {}
      if IngestRefusal(db, e, bootstrap, newId).None? { AdmittedFiles(db, e, bootstrap, newId); }
    }
  }

  /** What each refusal of a quarantine command says. */
  ghost predicate ReleaseRefused(db: Db, c: ResolveQuarantine, deployment: Option<Deployment>, e: QuarantineError) {
    match e
    case BadReason => |c.reason| == 0 || |c.reason| > 10_000
    case NotAuthorized => deployment.Some? && deployment.value != db.deployment
    case Suspended => !db.active
    case CommandReused =>
      && c.id in db.commands
      && var stored := db.commands[c.id];
         stored.event != c.event || stored.process != c.process || stored.actor != c.actor || stored.reason != c.reason ||
         stored.references != ReferenceSet(c.references)
    case EventNotFound => c.id !in db.commands && c.event !in db.inbox
    case KernelEvent => IsParked(db, c) && db.inbox[c.event].event.eventType == OPERATOR_MANUAL_WAKE
    case ForeignReference =>
      IsParked(db, c) && exists i :: 0 <= i < |c.references| && c.references[i] !in db.inbox[c.event].event.references
    case AlreadyCorrelated => IsParked(db, c) && (db.inbox[c.event].status.Matched? || db.inbox[c.event].process.Some?)
    case ProcessNotFound => c.id !in db.commands && c.process !in db.processes
    case OtherDeployment =>
      c.id !in db.commands && c.process in db.processes && db.processes[c.process].deployment != db.deployment
    case UnsupportedPolicy =>
      && c.id !in db.commands && c.process in db.processes
      && db.processes[c.process].status in {Completed, Cancelled, ProcessFailed} && !db.processes[c.process].recordOnly
    case OwnedElsewhere =>
      c.id !in db.commands && exists i :: 0 <= i < |c.references| && OwnedByOther(db, c.references[i], c.process)
  }

  /** A new command about an event of the inbox. */
  ghost predicate IsParked(db: Db, c: ResolveQuarantine) { c.id !in db.commands && c.event in db.inbox }

  ghost predicate OwnedByOther(db: Db, r: Reference, p: Id) { r in db.owners && db.owners[r] != p }

  /** What an accepted new quarantine command leaves behind. */
  ghost predicate Releases(db: Db, after: Db, c: ResolveQuarantine)
    requires c.event in db.inbox && c.process in db.processes
  {
    var ended := db.processes[c.process].status in {Completed, Cancelled, ProcessFailed};
    && WorkUntouched(db, after) && after.processes == db.processes && after.arrivals == db.arrivals
    && after.sources == db.sources
    && Bound(db.owners, c.references, c.process) == Some(after.owners)
    && after.commands == db.commands[
         c.id := QuarantineCommand(c.event, c.process, c.actor, c.reason, ReferenceSet(c.references), !ended)]
    && after.inbox == db.inbox[
         c.event := InboxRow(db.inbox[c.event].event, Some(c.process), Matched,
                             if ended then TerminalRecordOnly else OperatorResolution)]
    && (if ended then after.outbox == db.outbox
        else Told(db, after.outbox, Outbox.EventKey(c.event), c.process, Some(c.event)))
  }

  lemma ReleaseRefusals(db: Db, c: ResolveQuarantine)
    requires c.id !in db.commands && ReasonOk(c.reason) && db.active
    ensures match QuarantineRefusal(db, c)
            case Some(e) => ReleaseRefused(db, c, None, e)
            case None => forall e :: !ReleaseRefused(db, c, None, e)
  {
    hide Bound;
    BoundExactly(db.owners, c.references, c.process);
    if exists i :: 0 <= i < |c.references| && OwnedByOther(db, c.references[i], c.process) {
      var i :| 0 <= i < |c.references| && OwnedByOther(db, c.references[i], c.process);
      assert c.references[i] in db.owners && db.owners[c.references[i]] != c.process;
    }
    if Bound(db.owners, c.references, c.process).None? {
      var i :| 0 <= i < |c.references| && c.references[i] in db.owners && db.owners[c.references[i]] != c.process;
      assert OwnedByOther(db, c.references[i], c.process);
    }
    if c.event in db.inbox { ForeignReferences(c.references, db.inbox[c.event].event.references); }
  }

  lemma ForeignReferences(some: seq<Reference>, all: seq<Reference>)
    ensures ReferenceSet(some) <= ReferenceSet(all) <==> !exists i :: 0 <= i < |some| && some[i] !in all
  {
    if ReferenceSet(some) <= ReferenceSet(all) {
      forall i | 0 <= i < |some| ensures some[i] in all { assert some[i] in ReferenceSet(some); }
    }
  }

  lemma ReleasedReleases(db: Db, c: ResolveQuarantine)
    requires QuarantineRefusal(db, c).None?
    ensures Releases(db, Released(db, c), c)
  {
    hide Bound, Enqueued, Told;
    EnqueuedTells(db, Outbox.EventKey(c.event), c.process, Some(c.event));
  }

  /** A quarantine command is refused exactly for a reason that its refusal names, and a repeated
      one changes nothing. A new one gives the event and its references to the process, is kept,
      and delivers the event if the process is live. */
  lemma ReleaseAnswers(db: Db, c: ResolveQuarantine, deployment: Option<Deployment>)
    ensures match Unparked(db, c, deployment)
            case Err(e) => ReleaseRefused(db, c, deployment, e)
            case Ok(after) =>
              && (forall e :: !ReleaseRefused(db, c, deployment, e))
              && if c.id in db.commands then after == db
                 else c.event in db.inbox && c.process in db.processes && Releases(db, after, c)
  {
    hide QuarantineRefusal, Released, Releases;
    if c.id !in db.commands && ReasonOk(c.reason) && db.active {
      ReleaseRefusals(db, c);
      forall e ensures
        ReleaseRefused(db, c, deployment, e) <==>
        ReleaseRefused(db, c, None, e) || (e.NotAuthorized? && deployment.Some? && deployment.value != db.deployment)
      {}
      if QuarantineRefusal(db, c).None? {
        ReleaseFindsRows(db, c);
        ReleasedReleases(db, c);
      }
    }
  }

  lemma ReleaseFindsRows(db: Db, c: ResolveQuarantine)
    requires QuarantineRefusal(db, c).None?
    ensures c.event in db.inbox && c.process in db.processes
  {}

  /** What each refusal of an assignment says. */
  ghost predicate MoveRefused(db: Db, target: Deployment, reason: string, e: AssignError) {
    match e
    case ReservedTarget => target == "unassigned"
    case ReasonRequired => |reason| == 0 || |reason| > 10_000
    case ActiveProcesses =>
      && db.deployment != target && db.deployment != "unassigned"
      && exists p :: p in db.processes && db.processes[p].status !in {Completed, Cancelled, ProcessFailed}
    case OutstandingDeliveries =>
      && db.deployment != target && db.deployment != "unassigned"
      && exists k :: k in db.outbox && IsOutstanding(db, k)
  }

  ghost predicate IsOutstanding(db: Db, k: Outbox.DedupKey)
    requires k in db.outbox
  {
    && db.outbox[k].status != Outbox.Published && db.outbox[k].process in db.processes
    && db.processes[db.outbox[k].process].deployment == db.deployment
  }

  /** An assignment is refused exactly for a reason that its refusal names, and otherwise sets the
      deployment and nothing else. */
  lemma MoveAnswers(db: Db, target: Deployment, reason: string)
    ensures match Moved(db, target, reason)
            case Err(e) => MoveRefused(db, target, reason, e)
            case Ok(after) => after == db.(deployment := target) && forall e :: !MoveRefused(db, target, reason, e)
  {
    if HasOutstanding(db, db.deployment) {
      var k :| k in db.outbox && !db.outbox[k].status.Published? && db.outbox[k].process in db.processes &&
               db.processes[db.outbox[k].process].deployment == db.deployment;
      assert IsOutstanding(db, k);
    }
    if exists k :: k in db.outbox && IsOutstanding(db, k) { assert HasOutstanding(db, db.deployment); }
  }
}
