/** A message admitted at proposal time keeps its place in every count limit. */
module MessageBudget {
  import opened Contracts
  import opened Store
  import opened Protocol
  import opened Frames
  import opened Footprints
  import opened CoreInvariant
  import opened Evolution
  import Communications
  import QuietHours
  import Gateway
  import Reviews
  import Processes
  import Ingestion
  import Execution

  ghost function Sends(db: Db, p: Id): seq<int>
    requires p in db.processes
  {
    SendTimes(db.order, db.actions, p, db.processes[p].definition.comms.outboundTypes, None)
  }

  ghost function ReplyTime(db: Db, p: Id): Option<int>
    requires p in db.processes
  {
    LatestTime(db, p, db.processes[p].definition.comms.replyTypes)
  }

  /** The reserved messages of a process fit its total, window and follow-up limits. */
  ghost predicate BudgetOk(db: Db, p: Id)
    requires p in db.processes
  {
    var policy := db.processes[p].definition.comms;
    && |Sends(db, p)| <= policy.maxPerProcess
    && Communications.CountAfter(Sends(db, p), Some(db.clock - policy.window)) <= policy.maxPerWindow
    && Communications.CountAfter(Sends(db, p), ReplyTime(db, p)) <= policy.maxFollowUps
  }

  ghost predicate BudgetInv(db: Db) {
    && (forall i :: 0 <= i < |db.order| ==> db.order[i] in db.actions)
    && (forall p :: p in db.processes ==> BudgetOk(db, p))
  }

  // --------------------------------------------------------------- counting

  /** Reservations only disappear: the later times are counted by the earlier ones. */
  lemma {:induction false} SendsShrink(order: seq<Id>, before: map<Id, Action>, after: map<Id, Action>, p: Id,
                                       types: set<string>, bound: Option<int>)
    requires forall i :: 0 <= i < |order| && Reserves(after, order[i], p, types) ==>
               Reserves(before, order[i], p, types) && after[order[i]].createdAt == before[order[i]].createdAt
    ensures |SendTimes(order, after, p, types, None)| <= |SendTimes(order, before, p, types, None)|
    ensures Communications.CountAfter(SendTimes(order, after, p, types, None), bound) <=
            Communications.CountAfter(SendTimes(order, before, p, types, None), bound)
  {
    if order != [] {
      var n := |order| - 1;
      SendsShrink(order[..n], before, after, p, types, bound);
      var earlier, later := SendTimes(order[..n], before, p, types, None), SendTimes(order[..n], after, p, types, None);
      if Reserves(before, order[n], p, types) {
        Communications.CountAfterAppend(earlier, before[order[n]].createdAt, bound);
      }
      if Reserves(after, order[n], p, types) {
        Communications.CountAfterAppend(later, after[order[n]].createdAt, bound);
      }
    }
  }

  lemma {:induction false} NoSends(order: seq<Id>, actions: map<Id, Action>, p: Id, types: set<string>)
    requires forall i :: 0 <= i < |order| ==> !Reserves(actions, order[i], p, types)
    ensures SendTimes(order, actions, p, types, None) == []
  {
    if order != [] { NoSends(order[..|order| - 1], actions, p, types); }
  }

  lemma {:induction false} SendsIgnoreNewAction(order: seq<Id>, actions: map<Id, Action>, id: Id, a: Action, p: Id,
                                                types: set<string>)
    requires id !in actions && forall i :: 0 <= i < |order| ==> order[i] in actions
    ensures SendTimes(order, actions[id := a], p, types, None) == SendTimes(order, actions, p, types, None)
  {
    if order != [] { SendsIgnoreNewAction(order[..|order| - 1], actions, id, a, p, types); }
  }

  /** The last reply is never forgotten and never gets earlier. */
  lemma ReplyOnlyAdvances(db: Db, after: Db, p: Id, types: set<string>)
    requires MailKeeps(db, after)
    ensures LatestTime(db, p, types).Some? ==>
              LatestTime(after, p, types).Some? && LatestTime(db, p, types).value <= LatestTime(after, p, types).value
  {
    var e := LatestEvent(db.arrivals, db.inbox, p, types);
    if e.Some? {
      var i :| 0 <= i < |db.arrivals| && db.arrivals[i] == e.value;
      assert after.arrivals[i] == e.value && Concerns(after.inbox, after.arrivals[i], p, types);
    }
  }

  // ---------------------------------------------------------- generic steps

  lemma ReservedBefore(db: Db, after: Db, id: Id, p: Id, types: set<string>)
    requires WorkKeeps(db, after) && id in db.actions && Reserves(after.actions, id, p, types)
    ensures Reserves(db.actions, id, p, types) && after.actions[id].createdAt == db.actions[id].createdAt
  {
    var before, now := db.actions[id], after.actions[id];
    assert SameIdentity(before, now) && before.createdAt == now.createdAt;
    ReleasedIsSettled(before.status);
  }

  /** A status without a reservation is one that a request never leaves. */
  lemma ReleasedIsSettled(s: ActionStatus)
    ensures IsReserved(s) || IsSettled(s)
  {
    match s {
      case Allowed => case Denied => case PendingApproval => case Approved => case Rejected => case Superseded =>
      case Executing => case Succeeded => case Failed => case Conflict => case Unknown => case Reconciling =>
    }
  }

  lemma BudgetCarries(db: Db, after: Db, p: Id)
    requires Keeps(db, after) && after.order == db.order && p in db.processes && BudgetOk(db, p)
    requires forall i :: 0 <= i < |db.order| ==> db.order[i] in db.actions
    ensures p in after.processes && BudgetOk(after, p)
  {
    hide WorkKeeps, MailKeeps;
    var policy := db.processes[p].definition.comms;
    var types := policy.outboundTypes;
    forall i | 0 <= i < |db.order| && Reserves(after.actions, db.order[i], p, types)
      ensures Reserves(db.actions, db.order[i], p, types) &&
              after.actions[db.order[i]].createdAt == db.actions[db.order[i]].createdAt
    {
      ReservedBefore(db, after, db.order[i], p, types);
    }
    ReplyOnlyAdvances(db, after, p, policy.replyTypes);
    CountsCarry(db, after, p);
  }

  lemma CountsCarry(db: Db, after: Db, p: Id)
    requires p in db.processes && p in after.processes && BudgetOk(db, p)
    requires after.processes[p].definition == db.processes[p].definition
    requires after.order == db.order && db.clock <= after.clock
    requires var types := db.processes[p].definition.comms.outboundTypes;
             forall i :: 0 <= i < |db.order| && Reserves(after.actions, db.order[i], p, types) ==>
               Reserves(db.actions, db.order[i], p, types) &&
               after.actions[db.order[i]].createdAt == db.actions[db.order[i]].createdAt
    requires ReplyTime(db, p).Some? ==>
               ReplyTime(after, p).Some? && ReplyTime(db, p).value <= ReplyTime(after, p).value
    ensures BudgetOk(after, p)
  {
    hide LatestTime, Reserves;
    var policy := db.processes[p].definition.comms;
    var types := policy.outboundTypes;
    var low, high := Some(db.clock - policy.window), Some(after.clock - policy.window);
    SendsShrink(db.order, db.actions, after.actions, p, types, low);
    SendsShrink(db.order, db.actions, after.actions, p, types, ReplyTime(db, p));
    Communications.CountAfterMonotone(Sends(after, p), low, high);
    Communications.CountAfterMonotone(Sends(after, p), ReplyTime(db, p), ReplyTime(after, p));
  }

  lemma NewProcessHasBudget(db: Db, after: Db, p: Id)
    requires CoreInv(db) && Keeps(db, after) && after.order == db.order && p in after.processes && p !in db.processes
    requires forall i :: 0 <= i < |db.order| ==> db.order[i] in db.actions
    ensures BudgetOk(after, p)
  {
    hide ProcessesKeep, MailKeeps, AttemptOk, CompletionOk, FollowsPolicy, LatestTime;
    var types := after.processes[p].definition.comms.outboundTypes;
    forall i | 0 <= i < |after.order| ensures !Reserves(after.actions, after.order[i], p, types) {
      assert ActionOk(db, db.order[i]);
    }
    NoSends(after.order, after.actions, p, types);
  }

  lemma KeepsBudget(db: Db, after: Db)
    requires CoreInv(db) && BudgetInv(db) && Keeps(db, after) && after.order == db.order
    ensures BudgetInv(after)
  {
    hide CoreInv, BudgetOk, ProcessesKeep, MailKeeps;
    forall p | p in after.processes ensures BudgetOk(after, p) {
      hide WorkKeeps;
      if p in db.processes { BudgetCarries(db, after, p); } else { NewProcessHasBudget(db, after, p); }
    }
  }

  // ------------------------------------------------------------ the gateway

  lemma InsertedSends(db: Db, p: Id, turn: Id, proposal: Proposal, supersedes: Option<Id>, q: Id)
    requires p in db.processes && q in db.processes && proposal.requestId !in db.actions
    requires forall i :: 0 <= i < |db.order| ==> db.order[i] in db.actions
    ensures var after := Gateway.Inserted(db, p, turn, proposal, supersedes);
            if q == p && Gateway.IsOutbound(db, p, proposal) && IsReserved(after.actions[proposal.requestId].status)
            then Sends(after, q) == Sends(db, q) + [db.clock]
            else Sends(after, q) == Sends(db, q)
  {
    var after := Gateway.Inserted(db, p, turn, proposal, supersedes);
    var types := db.processes[q].definition.comms.outboundTypes;
    assert after.order[..|db.order|] == db.order;
    SendsIgnoreNewAction(db.order, db.actions, proposal.requestId, after.actions[proposal.requestId], q, types);
  }

  /** The contact policy admits one more message now. */
  ghost predicate Admissible(db: Db, p: Id)
    requires p in db.processes
  {
    Communications.Allowed(db.processes[p].definition.comms, Inspect(db, p, None), db.clock)
  }

  lemma AdmissionLeavesRoom(db: Db, p: Id)
    requires p in db.processes && Admissible(db, p)
    ensures var policy := db.processes[p].definition.comms;
            && |Sends(db, p)| + 1 <= policy.maxPerProcess
            && Communications.CountAfter(Sends(db, p), Some(db.clock - policy.window)) + 1 <= policy.maxPerWindow
            && Communications.CountAfter(Sends(db, p), ReplyTime(db, p)) + 1 <= policy.maxFollowUps
  {}

  lemma InsertKeepsBudget(db: Db, p: Id, turn: Id, proposal: Proposal, supersedes: Option<Id>)
    requires BudgetInv(db) && p in db.processes && proposal.requestId !in db.actions
    requires Gateway.IsOutbound(db, p, proposal) ==> Admissible(db, p)
    ensures BudgetInv(Gateway.Inserted(db, p, turn, proposal, supersedes))
  {
    hide Admissible, LatestTime, Gateway.NewAction;
    var after := Gateway.Inserted(db, p, turn, proposal, supersedes);
    forall q | q in after.processes ensures BudgetOk(after, q) {
      assert BudgetOk(db, q);
      InsertedBudget(db, after, p, turn, proposal, supersedes, q);
    }
  }

  lemma InsertedBudget(db: Db, after: Db, p: Id, turn: Id, proposal: Proposal, supersedes: Option<Id>, q: Id)
    requires p in db.processes && q in db.processes && BudgetOk(db, q) && proposal.requestId !in db.actions
    requires forall i :: 0 <= i < |db.order| ==> db.order[i] in db.actions
    requires Gateway.IsOutbound(db, p, proposal) ==> Admissible(db, p)
    requires after == Gateway.Inserted(db, p, turn, proposal, supersedes)
    ensures q in after.processes && BudgetOk(after, q)
  {
    hide Admissible, Gateway.NewAction;
    var policy := db.processes[q].definition.comms;
    InsertedSends(db, p, turn, proposal, supersedes, q);
    assert ReplyTime(after, q) == ReplyTime(db, q);
    hide LatestTime;
    if q == p && Gateway.IsOutbound(db, p, proposal) {
      AdmissionLeavesRoom(db, p);
      Communications.CountAfterAppend(Sends(db, q), db.clock, Some(db.clock - policy.window));
      Communications.CountAfterAppend(Sends(db, q), db.clock, ReplyTime(db, q));
    }
  }

  lemma {:induction false} PersistUpToKeepsBudget(db: Db, p: Id, turn: Id, actions: seq<Proposal>, n: nat,
                                                  targets: seq<Gateway.Target>, conflicted: set<Payload>,
                                                  breakers: Gateway.Breakers)
    requires BudgetInv(db) && p in db.processes && n <= |actions|
    ensures var r := Gateway.PersistUpTo(db, p, turn, actions, n, targets, conflicted, breakers);
            r.Ok? ==> BudgetInv(r.value)
  {
    hide BudgetInv, Gateway.PersistOne, Gateway.Inserted, Communications.Allowed, Inspect;
    if n > 0 {
      PersistUpToKeepsBudget(db, p, turn, actions, n - 1, targets, conflicted, breakers);
      var before := Gateway.PersistUpTo(db, p, turn, actions, n - 1, targets, conflicted, breakers);
      var r := Gateway.PersistUpTo(db, p, turn, actions, n, targets, conflicted, breakers);
      if r.Ok? {
        var supersedes := Gateway.Assigned(targets, actions, n)[n - 1];
        Gateway.PersistOneInserts(before.value, p, turn, actions[n - 1], supersedes, conflicted, breakers);
        if (p, turn, actions[n - 1].logicalKey) !in before.value.slots {
          InsertKeepsBudget(before.value, p, turn, actions[n - 1], supersedes);
        }
      }
    }
  }

  lemma PersistKeepsBudget(db: Db, tx: Tx)
    requires BudgetInv(db) && tx.Persist?
    ensures BudgetInv(Apply(db, tx))
  {
    hide BudgetInv, Gateway.PersistUpTo;
    if Gateway.Closed(db, tx.process, tx.breakers).None? {
      PersistUpToKeepsBudget(
        db, tx.process, tx.turn, tx.decision.actions, |tx.decision.actions|,
        Gateway.RevisionTargets(db, tx.process, tx.decision.reviewIds),
        Gateway.ConflictedPayloads(db, tx.process, tx.decision.attemptIds), tx.breakers);
    }
  }

  // ---------------------------------------------------------- everything else

  /** Every transaction, the passing of time included, keeps every process in its limits. */
  lemma ApplyKeepsBudget(db: Db, tx: Tx)
    requires CoreInv(db) && BudgetInv(db)
    ensures BudgetInv(Apply(db, tx))
  {
    hide CoreInv, BudgetInv, Keeps, ApplyTenant, ApplyAction, ApplyProcess;
    if tx.Persist? {
      PersistKeepsBudget(db, tx);
    } else {
      ApplyEvolves(db, tx);
      KeepsOrder(db, tx);
      KeepsBudget(db, Apply(db, tx));
    }
  }

  lemma {:induction false} RunKeepsBudget(db: Db, txs: seq<Tx>)
    requires CoreInv(db) && BudgetInv(db) && forall i :: 0 <= i < |txs| ==> Sound(txs[i])
    ensures BudgetInv(Run(db, txs))
  {
    hide CoreInv, BudgetInv, Apply;
    if txs != [] {
      RunKeepsBudget(db, txs[..|txs| - 1]);
      RunKeepsCore(db, txs[..|txs| - 1]);
      ApplyKeepsBudget(Run(db, txs[..|txs| - 1]), txs[|txs| - 1]);
    }
  }

  // ------------------------------------------------------------- the recheck

  /** The recheck of a request that holds a reservation counts it among the others and asks
      for no further place, so none of the three count limits can refuse it. */
  lemma RecheckPassesCounts(db: Db, p: Id, id: Id)
    requires p in db.processes && BudgetOk(db, p)
    ensures var policy, facts := db.processes[p].definition.comms, Inspect(db, p, Some(id));
            !Communications.ProcessLimitHit(policy, facts) &&
            !Communications.RateLimitHit(policy, facts, db.clock) &&
            !Communications.FollowUpLimitHit(policy, facts)
  {}

  /** In every reachable state, an execution that is blocked at the provider boundary is blocked
      by an expiry, an opt-out, an automated response, quiet hours, the spacing rule or a
      breaker, and never by the process, window or follow-up limit. */
  lemma ReservationsAreSound(db: Db, txs: seq<Tx>, release: Deployment, p: Id, id: Id, revision: nat,
                             breakers: Gateway.Breakers)
    requires CoreInv(db) && BudgetInv(db) && forall i :: 0 <= i < |txs| ==> Sound(txs[i])
    requires Execution.Cross(Run(db, txs), release, p, id, revision, breakers) == Ok(Execution.Blocked)
    ensures var now := Run(db, txs);
            && p in now.processes && id in now.actions
            && var policy, facts := now.processes[p].definition.comms, Inspect(now, p, Some(id));
               Expired(now, p) || facts.optedOutAt.Some? || facts.automatedAt.Some? ||
               QuietHours.QuietEnd(policy.quietHours, now.clock).Some? ||
               Communications.IntervalHit(policy, facts, now.clock) ||
               Execution.BreakerStops(now, p, id, breakers)
  {
    hide CoreInv, BudgetInv, Run;
    RunKeepsBudget(db, txs);
    BlockedForAReason(Run(db, txs), release, p, id, revision, breakers);
  }

  lemma BlockedForAReason(now: Db, release: Deployment, p: Id, id: Id, revision: nat, breakers: Gateway.Breakers)
    requires BudgetInv(now) && Execution.Cross(now, release, p, id, revision, breakers) == Ok(Execution.Blocked)
    ensures p in now.processes && id in now.actions
    ensures var policy, facts := now.processes[p].definition.comms, Inspect(now, p, Some(id));
            Expired(now, p) || facts.optedOutAt.Some? || facts.automatedAt.Some? ||
            QuietHours.QuietEnd(policy.quietHours, now.clock).Some? ||
            Communications.IntervalHit(policy, facts, now.clock) ||
            Execution.BreakerStops(now, p, id, breakers)
  {
    hide Execution.Refusal, BudgetOk, Communications.IntervalHit, Communications.ProcessLimitHit,
         Communications.RateLimitHit, Communications.FollowUpLimitHit, Inspect;
    Found(now, release, p, id, revision, true);
    assert BudgetOk(now, p);
    RecheckPassesCounts(now, p, id);
    CreationIsKnown(now, p, id);
  }

  lemma CreationIsKnown(db: Db, p: Id, id: Id)
    requires p in db.processes
    ensures Inspect(db, p, Some(id)).createdAt == db.processes[p].createdAt
  {}
}
