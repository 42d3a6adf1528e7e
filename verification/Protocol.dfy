/** The transactions of a tenant as one state machine. */
module Protocol {
  import opened Contracts
  import opened Store
  import Gateway
  import Reviews
  import Processes
  import Ingestion
  import Execution
  import Outbox

  /** Every transaction that changes the database. */
  datatype Tx =
    | Tick(seconds: nat)
    | SetActive(flag: bool)
    | Ingest(event: Event, bootstrap: Option<Ingestion.Bootstrap>, ingress: Option<Deployment>, newId: Id)
    | Unpark(quarantine: Ingestion.ResolveQuarantine, ingress: Option<Deployment>)
    | Assign(target: Deployment, reason: string)
    | Persist(process: Id, turn: Id, decision: Decision, breakers: Gateway.Breakers)
    | Decide(process: Id, turn: Id, decision: Decision, limits: Processes.Limits)
    | Intervene(process: Id, turn: Id)
    | ControlTx(command: Processes.ControlCommand, eventId: Id)
    | ReviewTx(review: Reviews.ReviewCommand)
    | Resolve(resolve: Reviews.ResolveCommand)
    | Reserve(release: Deployment, adapter: Id, process: Id, request: Id, revision: nat)
    | Record(key: Key, status: ActionStatus, effect: Option<Effect>)
    | Reconcile(release: Deployment, process: Id, request: Id, revision: nat)
    | Dispatch(rows: map<Outbox.DedupKey, Outbox.Message>)

  function Or<E>(r: Result<Db, E>, db: Db): Db {
    if r.Ok? then r.value else db
  }

  /** A delivery attempt changes neither what a message is about nor a published message. */
  ghost predicate RowsEvolve(before: map<Outbox.DedupKey, Outbox.Message>, after: map<Outbox.DedupKey, Outbox.Message>) {
    && before.Keys == after.Keys
    && forall k :: k in before ==>
         after[k].process == before[k].process && after[k].cause == before[k].cause &&
         (before[k].status.Published? ==> after[k] == before[k])
  }

  /** Transactions of the tenant itself. */
  predicate OfTenant(tx: Tx) { tx.Tick? || tx.SetActive? || tx.Assign? || tx.Dispatch? }

  /** Transactions on a stored request. */
  predicate OfAction(tx: Tx) { tx.ReviewTx? || tx.Resolve? || tx.Reserve? || tx.Record? || tx.Reconcile? }

  ghost function ApplyTenant(db: Db, tx: Tx): Db
    requires OfTenant(tx)
  {
    match tx
    case Tick(seconds) => db.(clock := db.clock + seconds)
    case SetActive(flag) => db.(active := flag)
    case Assign(target, reason) => Or(Ingestion.Moved(db, target, reason), db)
    case Dispatch(rows) => if RowsEvolve(db.outbox, rows) then db.(outbox := rows) else db
  }

  ghost function ApplyAction(db: Db, tx: Tx): Db
    requires OfAction(tx)
  {
    match tx
    case ReviewTx(review) => Or(Reviews.AppliedReview(db, review), db)
    case Resolve(resolve) => Or(Reviews.Resolved(db, resolve), db)
    case Reserve(release, adapter, p, id, revision) =>
      var r := Execution.Reserve(db, release, adapter, p, id, revision);
      if r.Ok? then r.value.0 else db
    case Record(key, status, effect) => Execution.Record(db, key, status, effect)
    case Reconcile(release, p, id, revision) =>
      var r := Execution.StartReconcile(db, release, p, id, revision);
      if r.Ok? then r.value.0 else db
  }

  ghost function ApplyProcess(db: Db, tx: Tx): Db
    requires !OfTenant(tx) && !OfAction(tx)
  {
    match tx
    case Ingest(event, bootstrap, ingress, newId) =>
      Or(Ingestion.Ingested(db, event, bootstrap, ingress, newId), db)
    case Unpark(quarantine, ingress) => Or(Ingestion.Unparked(db, quarantine, ingress), db)
    case Persist(p, turn, decision, breakers) => Or(Gateway.Persisted(db, p, turn, decision, breakers), db)
    case Decide(p, turn, decision, limits) => Or(Processes.Decided(db, p, turn, decision, limits), db)
    case Intervene(p, turn) => Or(Processes.Intervened(db, p, turn), db)
    case ControlTx(command, eventId) => Or(Processes.Commanded(db, command, eventId), db)
  }

  /** A transaction that is refused rolls back and leaves the database alone. */
  ghost function Apply(db: Db, tx: Tx): Db {
    if OfTenant(tx) then ApplyTenant(db, tx)
    else if OfAction(tx) then ApplyAction(db, tx)
    else ApplyProcess(db, tx)
  }

  /** What callers owe each transaction: executors record only what an execution can end in. */
  predicate Sound(tx: Tx) {
    tx.Record? ==> tx.status in {Succeeded, Failed, Conflict, Unknown}
  }

  ghost function Run(db: Db, txs: seq<Tx>): Db {
    if txs == [] then db else Apply(Run(db, txs[..|txs| - 1]), txs[|txs| - 1])
  }

  // ---------------------------------------------------------- the dispatcher

  /** Every step of the delivery protocol on the stored rows is a dispatch transaction, and its
      insertion step is what the services do. */
  lemma DeliveryStepsAreTransactions(db: Db, claims: map<Id, Outbox.Claim>, signalled: set<Outbox.DedupKey>,
                                     step: Outbox.Step, c: Outbox.Config)
    ensures var after := Outbox.Next(Outbox.State(db.outbox, claims, signalled), step, c);
            if step.Enqueue?
            then step.at == db.clock ==> after.rows == Enqueued(db, step.key, step.process, step.cause)
            else Apply(db, Dispatch(after.rows)) == db.(outbox := after.rows)
  {
    hide Outbox.Power2;
    if !step.Enqueue? {
      DeliveryKeepsRows(Outbox.State(db.outbox, claims, signalled), step, c);
    }
  }

  lemma DeliveryKeepsRows(s: Outbox.State, step: Outbox.Step, c: Outbox.Config)
    requires !step.Enqueue?
    ensures RowsEvolve(s.rows, Outbox.Next(s, step, c).rows)
  {
    hide Outbox.Power2;
  }
}
