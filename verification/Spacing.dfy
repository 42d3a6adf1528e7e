/** When a message that was admitted is held back at its execution. */
module Spacing {
  import opened Contracts
  import opened Store
  import opened Protocol
  import opened Frames
  import opened Footprints
  import opened CoreInvariant
  import opened Evolution
  import opened MessageBudget
  import Communications
  import Execution
  import Gateway
  import QuietHours

  // -------------------------------------------------------------- invariant

  /** Request i of the order is a reserved message of the process. */
  ghost predicate Held(db: Db, p: Id, i: int)
    requires p in db.processes && 0 <= i < |db.order|
  {
    Reserves(db.actions, db.order[i], p, db.processes[p].definition.comms.outboundTypes)
  }

  /** If both are reserved and the earlier is later than the last reply, they were admitted at
      least the minimum interval apart. */
  ghost predicate Apart(db: Db, p: Id, i: int, j: int)
    requires p in db.processes && 0 <= i < j < |db.order|
  {
    Held(db, p, i) && Held(db, p, j) &&
    Communications.After(db.actions[db.order[i]].createdAt, ReplyTime(db, p)) ==>
      db.actions[db.order[i]].createdAt + db.processes[p].definition.comms.minimumInterval <=
      db.actions[db.order[j]].createdAt
  }

  ghost predicate SpacedOk(db: Db, p: Id)
    requires p in db.processes
  {
    forall i, j :: 0 <= i < j < |db.order| ==> Apart(db, p, i, j)
  }

  /** The order lists distinct stored requests, none from the future. */
  ghost predicate OrderOk(db: Db) {
    && (forall i :: 0 <= i < |db.order| ==> db.order[i] in db.actions && db.actions[db.order[i]].createdAt <= db.clock)
    && (forall i, j :: 0 <= i < j < |db.order| ==> db.order[i] != db.order[j])
  }

  ghost predicate SpacingInv(db: Db) {
    OrderOk(db) && forall p :: p in db.processes ==> SpacedOk(db, p)
  }

  // ------------------------------------------------- everything but proposals

  lemma OrderCarries(db: Db, after: Db)
    requires OrderOk(db) && after.order == db.order && WorkKeeps(db, after) && db.clock <= after.clock
    ensures OrderOk(after)
  {
    forall i | 0 <= i < |after.order|
      ensures after.order[i] in after.actions && after.actions[after.order[i]].createdAt <= after.clock
    {
      assert SameIdentity(db.actions[db.order[i]], after.actions[db.order[i]]);
    }
  }

  lemma HeldBefore(db: Db, after: Db, p: Id, i: int)
    requires OrderOk(db) && WorkKeeps(db, after) && after.order == db.order && 0 <= i < |db.order|
    requires p in db.processes && p in after.processes
    requires after.processes[p].definition == db.processes[p].definition && Held(after, p, i)
    ensures Held(db, p, i) && after.actions[db.order[i]].createdAt == db.actions[db.order[i]].createdAt
  {
    hide WorkKeeps;
    ReservedBefore(db, after, db.order[i], p, db.processes[p].definition.comms.outboundTypes);
  }

  lemma ApartCarries(db: Db, after: Db, p: Id, i: int, j: int)
    requires OrderOk(db) && WorkKeeps(db, after) && after.order == db.order && 0 <= i < j < |db.order|
    requires p in db.processes && p in after.processes
    requires after.processes[p].definition == db.processes[p].definition
    requires ReplyTime(db, p).Some? ==>
               ReplyTime(after, p).Some? && ReplyTime(db, p).value <= ReplyTime(after, p).value
    requires Apart(db, p, i, j)
    ensures Apart(after, p, i, j)
  {
    hide WorkKeeps, OrderOk, LatestTime;
    if Held(after, p, i) && Held(after, p, j) {
      HeldBefore(db, after, p, i);
      HeldBefore(db, after, p, j);
    }
  }

  /** Reservations only disappear and replies only advance. */
  lemma SpacingCarries(db: Db, after: Db, p: Id)
    requires OrderOk(db) && p in db.processes && SpacedOk(db, p) && Keeps(db, after) && after.order == db.order
    ensures p in after.processes && SpacedOk(after, p)
  {
    hide WorkKeeps, MailKeeps, OrderOk, Apart, LatestTime;
    ReplyOnlyAdvances(db, after, p, db.processes[p].definition.comms.replyTypes);
    forall i, j | 0 <= i < j < |after.order| ensures Apart(after, p, i, j) { ApartCarries(db, after, p, i, j); }
  }

  lemma NewProcessIsSpaced(db: Db, after: Db, p: Id)
    requires CoreInv(db) && OrderOk(db) && Keeps(db, after) && after.order == db.order
    requires p in after.processes && p !in db.processes
    ensures SpacedOk(after, p)
  {
    hide ProcessesKeep, MailKeeps, AttemptOk, CompletionOk, FollowsPolicy, LatestTime;
    forall i | 0 <= i < |after.order| ensures !Held(after, p, i) {
      assert ActionOk(db, db.order[i]);
    }
  }

  lemma OthersKeepSpacing(db: Db, after: Db)
    requires CoreInv(db) && SpacingInv(db) && Keeps(db, after) && after.order == db.order
    ensures SpacingInv(after)
  {
    hide CoreInv, SpacedOk, ProcessesKeep, WorkKeeps, MailKeeps, OrderOk;
    OrderCarries(db, after);
    forall p | p in after.processes ensures SpacedOk(after, p) {
      if p in db.processes { SpacingCarries(db, after, p); } else { NewProcessIsSpaced(db, after, p); }
    }
  }

  // --------------------------------------------------------------- proposals

  lemma {:induction false} SendIsListed(order: seq<Id>, actions: map<Id, Action>, p: Id, types: set<string>,
                                        except: Option<Id>, i: int)
    requires 0 <= i < |order| && Reserves(actions, order[i], p, types) && except != Some(order[i])
    ensures actions[order[i]].createdAt in SendTimes(order, actions, p, types, except)
  {
    var n := |order| - 1;
    if i < n { SendIsListed(order[..n], actions, p, types, except, i); }
  }

  lemma {:induction false} ListedIsSend(order: seq<Id>, actions: map<Id, Action>, p: Id, types: set<string>,
                                        except: Option<Id>, t: int)
    requires t in SendTimes(order, actions, p, types, except)
    ensures exists i :: 0 <= i < |order| && Reserves(actions, order[i], p, types) && except != Some(order[i]) &&
                        actions[order[i]].createdAt == t
  {
    var n := |order| - 1;
    var rest := SendTimes(order[..n], actions, p, types, except);
    if t in rest {
      ListedIsSend(order[..n], actions, p, types, except, t);
      var i :| 0 <= i < n && Reserves(actions, order[..n][i], p, types) && except != Some(order[..n][i]) &&
               actions[order[..n][i]].createdAt == t;
      assert order[i] == order[..n][i];
    }
  }

  /** An admitted message is an interval later than every reserved one after the last reply. */
  lemma AdmissionIsSpaced(db: Db, p: Id, i: int)
    requires p in db.processes && Admissible(db, p) && 0 <= i < |db.order| && Held(db, p, i)
    requires Communications.After(db.actions[db.order[i]].createdAt, ReplyTime(db, p))
    ensures db.actions[db.order[i]].createdAt + db.processes[p].definition.comms.minimumInterval <= db.clock
  {
    hide LatestTime;
    SendIsListed(db.order, db.actions, p, db.processes[p].definition.comms.outboundTypes, None, i);
  }

  lemma InsertKeepsOrder(db: Db, p: Id, turn: Id, proposal: Proposal, supersedes: Option<Id>)
    requires OrderOk(db) && p in db.processes && proposal.requestId !in db.actions
    ensures OrderOk(Gateway.Inserted(db, p, turn, proposal, supersedes))
  {}

  lemma InsertedHeld(db: Db, after: Db, p: Id, turn: Id, proposal: Proposal, supersedes: Option<Id>, q: Id, i: int)
    requires OrderOk(db) && p in db.processes && q in db.processes && proposal.requestId !in db.actions
    requires after == Gateway.Inserted(db, p, turn, proposal, supersedes) && 0 <= i <= |db.order| && Held(after, q, i)
    ensures after.order[i] in after.actions
    ensures if i < |db.order|
            then Held(db, q, i) && after.actions[after.order[i]] == db.actions[db.order[i]]
            else q == p && Gateway.IsOutbound(db, p, proposal) && after.actions[after.order[i]].createdAt == db.clock
  {}

  lemma ApartInserted(db: Db, after: Db, p: Id, turn: Id, proposal: Proposal, supersedes: Option<Id>, q: Id, i: int, j: int)
    requires OrderOk(db) && p in db.processes && q in db.processes && SpacedOk(db, q)
    requires proposal.requestId !in db.actions && (Gateway.IsOutbound(db, p, proposal) ==> Admissible(db, p))
    requires after == Gateway.Inserted(db, p, turn, proposal, supersedes) && 0 <= i < j <= |db.order|
    ensures Apart(after, q, i, j)
  {
    hide OrderOk, Admissible, LatestTime, Gateway.NewAction, Reserves;
    RepliesAreMail(db, after, q);
    if Held(after, q, i) && Held(after, q, j) {
      InsertedHeld(db, after, p, turn, proposal, supersedes, q, i);
      InsertedHeld(db, after, p, turn, proposal, supersedes, q, j);
      if j < |db.order| {
        assert Apart(db, q, i, j);
      } else if Communications.After(after.actions[after.order[i]].createdAt, ReplyTime(after, q)) {
        AdmissionIsSpaced(db, p, i);
      }
    }
  }

  lemma InsertKeepsSpacing(db: Db, after: Db, p: Id, turn: Id, proposal: Proposal, supersedes: Option<Id>, q: Id)
    requires OrderOk(db) && p in db.processes && q in db.processes && SpacedOk(db, q)
    requires proposal.requestId !in db.actions && (Gateway.IsOutbound(db, p, proposal) ==> Admissible(db, p))
    requires after == Gateway.Inserted(db, p, turn, proposal, supersedes)
    ensures q in after.processes && SpacedOk(after, q)
  {
    hide OrderOk, Admissible, Gateway.NewAction, Apart;
    forall i, j | 0 <= i < j < |after.order| ensures Apart(after, q, i, j) {
      ApartInserted(db, after, p, turn, proposal, supersedes, q, i, j);
    }
  }

  lemma RepliesAreMail(db: Db, after: Db, p: Id)
    requires p in db.processes && after.processes == db.processes
    requires after.arrivals == db.arrivals && after.inbox == db.inbox
    ensures ReplyTime(after, p) == ReplyTime(db, p)
  {}

  lemma {:induction false} PersistUpToKeepsSpacing(db: Db, p: Id, turn: Id, actions: seq<Proposal>, n: nat,
                                                   targets: seq<Gateway.Target>, conflicted: set<Payload>,
                                                   breakers: Gateway.Breakers)
    requires SpacingInv(db) && p in db.processes && n <= |actions|
    ensures var r := Gateway.PersistUpTo(db, p, turn, actions, n, targets, conflicted, breakers);
            r.Ok? ==> SpacingInv(r.value)
  {
    hide OrderOk, SpacedOk, Gateway.PersistOne, Gateway.Inserted, Communications.Allowed, Inspect;
    if n > 0 {
      PersistUpToKeepsSpacing(db, p, turn, actions, n - 1, targets, conflicted, breakers);
      var before := Gateway.PersistUpTo(db, p, turn, actions, n - 1, targets, conflicted, breakers);
      var r := Gateway.PersistUpTo(db, p, turn, actions, n, targets, conflicted, breakers);
      if r.Ok? {
        var supersedes := Gateway.Assigned(targets, actions, n)[n - 1];
        Gateway.PersistOneInserts(before.value, p, turn, actions[n - 1], supersedes, conflicted, breakers);
        if (p, turn, actions[n - 1].logicalKey) !in before.value.slots {
          InsertKeepsOrder(before.value, p, turn, actions[n - 1], supersedes);
          forall q | q in r.value.processes ensures SpacedOk(r.value, q) {
            InsertKeepsSpacing(before.value, r.value, p, turn, actions[n - 1], supersedes, q);
          }
        }
      }
    }
  }

  lemma PersistKeepsSpacing(db: Db, tx: Tx)
    requires SpacingInv(db) && tx.Persist?
    ensures SpacingInv(Apply(db, tx))
  {
    hide SpacingInv, Gateway.PersistUpTo;
    if Gateway.Closed(db, tx.process, tx.breakers).None? {
      PersistUpToKeepsSpacing(
        db, tx.process, tx.turn, tx.decision.actions, |tx.decision.actions|,
        Gateway.RevisionTargets(db, tx.process, tx.decision.reviewIds),
        Gateway.ConflictedPayloads(db, tx.process, tx.decision.attemptIds), tx.breakers);
    }
  }

  lemma ApplyKeepsSpacing(db: Db, tx: Tx)
    requires CoreInv(db) && SpacingInv(db)
    ensures SpacingInv(Apply(db, tx))
  {
    hide CoreInv, SpacingInv, Keeps, ApplyTenant, ApplyAction, ApplyProcess;
    if tx.Persist? {
      PersistKeepsSpacing(db, tx);
    } else {
      ApplyEvolves(db, tx);
      KeepsOrder(db, tx);
      OthersKeepSpacing(db, Apply(db, tx));
    }
  }

  lemma {:induction false} RunKeepsSpacing(db: Db, txs: seq<Tx>)
    requires CoreInv(db) && SpacingInv(db) && forall i :: 0 <= i < |txs| ==> Sound(txs[i])
    ensures SpacingInv(Run(db, txs))
  {
    hide CoreInv, SpacingInv, Apply;
    if txs != [] {
      RunKeepsSpacing(db, txs[..|txs| - 1]);
      RunKeepsCore(db, txs[..|txs| - 1]);
      ApplyKeepsSpacing(Run(db, txs[..|txs| - 1]), txs[|txs| - 1]);
    }
  }

  // ------------------------------------------------------------- the recheck

  /** Reserved message i is later than the last reply and younger than the interval. */
  ghost predicate IsFresh(db: Db, p: Id, i: int)
    requires p in db.processes
  {
    && 0 <= i < |db.order| && Held(db, p, i)
    && Communications.After(db.actions[db.order[i]].createdAt, ReplyTime(db, p))
    && db.clock < db.actions[db.order[i]].createdAt + db.processes[p].definition.comms.minimumInterval
  }

  /** The recheck of a request is held back by spacing exactly while another reserved message is
      fresh, in whatever state. */
  lemma RecheckIsSpacedExactly(db: Db, p: Id, id: Id)
    requires p in db.processes
    ensures Communications.IntervalHit(db.processes[p].definition.comms, Inspect(db, p, Some(id)), db.clock) <==>
            exists i :: IsFresh(db, p, i) && db.order[i] != id
  {
    hide LatestTime;
    var types := db.processes[p].definition.comms.outboundTypes;
    var times := SendTimes(db.order, db.actions, p, types, Some(id));
    forall i | IsFresh(db, p, i) && db.order[i] != id ensures db.actions[db.order[i]].createdAt in times {
      SendIsListed(db.order, db.actions, p, types, Some(id), i);
    }
    var latest := Communications.LatestAfter(times, ReplyTime(db, p));
    if latest.Some? {
      ListedIsSend(db.order, db.actions, p, types, Some(id), latest.value);
      if db.clock < latest.value + db.processes[p].definition.comms.minimumInterval {
        var i :| 0 <= i < |db.order| && Reserves(db.actions, db.order[i], p, types) && id != db.order[i] &&
                 db.actions[db.order[i]].createdAt == latest.value;
        assert IsFresh(db, p, i);
      }
    }
  }

  /** In every reachable state a reserved message is held back by spacing exactly while a message
      proposed after it is fresh: an earlier one never delays a later one. */
  lemma HeldBackExactly(db: Db, txs: seq<Tx>, p: Id, j: int)
    requires CoreInv(db) && SpacingInv(db) && forall i :: 0 <= i < |txs| ==> Sound(txs[i])
    requires var now := Run(db, txs); p in now.processes && 0 <= j < |now.order| && Held(now, p, j)
    ensures var now := Run(db, txs);
            Communications.IntervalHit(now.processes[p].definition.comms, Inspect(now, p, Some(now.order[j])), now.clock)
            <==> exists i :: j < i && IsFresh(now, p, i)
  {
    hide CoreInv, Run;
    RunKeepsSpacing(db, txs);
    HeldBackIn(Run(db, txs), p, j);
  }

  lemma EarlierIsNotFresh(db: Db, p: Id, i: int, j: int)
    requires SpacingInv(db) && p in db.processes && 0 <= i < j < |db.order| && Held(db, p, j)
    ensures !IsFresh(db, p, i)
  {
    hide Held, LatestTime;
    assert SpacedOk(db, p) && Apart(db, p, i, j);
  }

  lemma HeldBackIn(now: Db, p: Id, j: int)
    requires SpacingInv(now) && p in now.processes && 0 <= j < |now.order| && Held(now, p, j)
    ensures Communications.IntervalHit(now.processes[p].definition.comms, Inspect(now, p, Some(now.order[j])), now.clock)
            <==> exists i :: j < i && IsFresh(now, p, i)
  {
    hide Communications.IntervalHit, Inspect, LatestTime, Held;
    RecheckIsSpacedExactly(now, p, now.order[j]);
    assert SpacedOk(now, p);
    forall i | 0 <= i < j ensures !IsFresh(now, p, i) { EarlierIsNotFresh(now, p, i, j); }
    if exists i :: IsFresh(now, p, i) && now.order[i] != now.order[j] {
      var i :| IsFresh(now, p, i) && now.order[i] != now.order[j];
      assert j < i;
    }
  }

  /** In every run the latest reserved message is never held back by spacing. */
  lemma LatestIsNeverHeldBack(db: Db, txs: seq<Tx>, p: Id, j: int)
    requires CoreInv(db) && SpacingInv(db) && forall i :: 0 <= i < |txs| ==> Sound(txs[i])
    requires var now := Run(db, txs);
             p in now.processes && 0 <= j < |now.order| && Held(now, p, j) &&
             forall i :: j < i < |now.order| ==> !Held(now, p, i)
    ensures var now := Run(db, txs);
            !Communications.IntervalHit(
              now.processes[p].definition.comms, Inspect(now, p, Some(now.order[j])), now.clock)
  {
    hide CoreInv, SpacingInv, Run, Held, Communications.IntervalHit, Inspect;
    HeldBackExactly(db, txs, p, j);
  }

  /** In every reachable state an authorized execution of a reserved message is blocked at the
      provider boundary exactly by an expiry, an opt-out, a standing automated response, quiet
      hours, a fresh message proposed after it, or a breaker. */
  lemma MessageBlockedExactly(db: Db, txs: seq<Tx>, release: Deployment, p: Id, revision: nat, j: int,
                              breakers: Gateway.Breakers)
    requires CoreInv(db) && SpacingInv(db) && BudgetInv(db) && forall i :: 0 <= i < |txs| ==> Sound(txs[i])
    requires var now := Run(db, txs);
             p in now.processes && 0 <= j < |now.order| && Held(now, p, j) &&
             Execution.Refusal(now, release, p, now.order[j], revision, true).None?
    ensures var now := Run(db, txs);
            var id := now.order[j];
            id in now.actions &&
            var policy, facts := now.processes[p].definition.comms, Inspect(now, p, Some(id));
            Execution.Cross(now, release, p, id, revision, breakers) == Ok(Execution.Blocked) <==>
              Expired(now, p) || facts.optedOutAt.Some? || facts.automatedAt.Some? ||
              QuietHours.QuietEnd(policy.quietHours, now.clock).Some? || (exists i :: j < i && IsFresh(now, p, i)) ||
              Execution.BreakerStops(now, p, id, breakers)
  {
    hide CoreInv, SpacingInv, BudgetInv, Run, Inspect, Communications.IntervalHit, Held, Execution.Cross, Execution.Refusal,
         IsFresh, Execution.BreakerStops;
    RunKeepsBudget(db, txs);
    HeldBackExactly(db, txs, p, j);
    var now := Run(db, txs);
    HeldIsReserved(now, p, j);
    BudgetOf(now, p);
    RecheckPassesCounts(now, p, now.order[j]);
    BoundaryOfMessage(now, release, p, now.order[j], revision, breakers);
  }

  lemma HeldIsReserved(db: Db, p: Id, j: int)
    requires p in db.processes && 0 <= j < |db.order| && Held(db, p, j)
    ensures db.order[j] in db.actions && IsReserved(db.actions[db.order[j]].status)
    ensures db.actions[db.order[j]].payload.actionType in db.processes[p].definition.comms.outboundTypes
  {}

  lemma BudgetOf(db: Db, p: Id)
    requires BudgetInv(db) && p in db.processes
    ensures BudgetOk(db, p)
  {}

  lemma BoundaryOfMessage(now: Db, release: Deployment, p: Id, id: Id, revision: nat, breakers: Gateway.Breakers)
    requires p in now.processes && id in now.actions && IsReserved(now.actions[id].status)
    requires now.actions[id].payload.actionType in now.processes[p].definition.comms.outboundTypes
    requires Execution.Refusal(now, release, p, id, revision, true).None?
    requires var policy, facts := now.processes[p].definition.comms, Inspect(now, p, Some(id));
             !Communications.ProcessLimitHit(policy, facts) &&
             !Communications.RateLimitHit(policy, facts, now.clock) &&
             !Communications.FollowUpLimitHit(policy, facts)
    ensures var policy, facts := now.processes[p].definition.comms, Inspect(now, p, Some(id));
            Execution.Cross(now, release, p, id, revision, breakers) == Ok(Execution.Blocked) <==>
              Expired(now, p) || facts.optedOutAt.Some? || facts.automatedAt.Some? ||
              QuietHours.QuietEnd(policy.quietHours, now.clock).Some? ||
              Communications.IntervalHit(policy, facts, now.clock) || Execution.BreakerStops(now, p, id, breakers)
  {
    hide Execution.Refusal, Inspect, Communications.IntervalHit, Communications.ProcessLimitHit,
         Communications.RateLimitHit, Communications.FollowUpLimitHit, Execution.BreakerStops;
    CreationIsKnown(now, p, id);
  }
}
