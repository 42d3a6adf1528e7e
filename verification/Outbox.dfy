/** Claim-token delivery of outbox messages, with stale reclaim, crashes and dead letters. */
module Outbox {
  import opened Contracts

  /** Deduplication identities, one shape per producer. */
  datatype DedupKey =
    | EventKey(event: Id)
    | ReviewKey(command: Id)
    | ResolutionKey(decision: Id)
    | ControlKey(command: Id)

  datatype DeliveryStatus = Pending | Publishing | Published | DeadLetter

  datatype Message = Message(
    process: Id,
    cause: Option<Id>,
    status: DeliveryStatus,
    attempts: nat,
    availableAt: int,
    claimedAt: Option<int>,
    token: Option<Id>,
    deadLetteredAt: Option<int>)

  datatype Config = Config(maxAttempts: nat, staleAfter: nat, baseDelay: nat)

  function Fresh(process: Id, cause: Option<Id>, now: int): Message {
    Message(process, cause, Pending, 0, now, None, None, None)
  }

  // -------------------------------------------------------- one row's moves

  predicate Stale(m: Message, now: int, c: Config) {
    m.status.Publishing? && m.claimedAt.Some? && m.claimedAt.value < now - c.staleAfter
  }

  predicate Claimable(m: Message, now: int, c: Config) {
    m.availableAt <= now && (m.status.Pending? || Stale(m, now, c))
  }

  function ClaimRow(m: Message, token: Id, now: int): Message {
    m.(status := Publishing, claimedAt := Some(now), token := Some(token), attempts := m.attempts + 1)
  }

  predicate HeldBy(m: Message, token: Id) {
    m.status.Publishing? && m.token == Some(token)
  }

  function PublishRow(m: Message): Message {
    m.(status := Published, claimedAt := None, token := None, deadLetteredAt := None)
  }

  function Power2(n: nat): nat { if n == 0 then 1 else 2 * Power2(n - 1) }

  /** Failure under a claim that counted `attempts`: dead letter at the maximum, otherwise
      pending again after an exponential delay. */
  function FailRow(m: Message, attempts: nat, now: int, c: Config): Message {
    if attempts >= c.maxAttempts then
      m.(status := DeadLetter, claimedAt := None, token := None, availableAt := now,
         deadLetteredAt := Some(now))
    else
      m.(status := Pending, claimedAt := None, token := None, deadLetteredAt := None,
         availableAt := now + c.baseDelay * Power2(if attempts == 0 then 0 else attempts - 1))
  }

  function RequeueRow(m: Message, now: int): Message {
    m.(status := Pending, availableAt := now, attempts := 0, claimedAt := None, token := None,
       deadLetteredAt := None)
  }

  // ------------------------------------------------------------- the table

  datatype ClaimedMessage = ClaimedMessage(key: DedupKey, token: Id, attempts: nat)

  datatype DispatchStatus = Nothing | WasPublished | RetryScheduled | DeadLettered | ClaimLost

  datatype Recovery = Recovery(
    message: DedupKey, actor: Id, reason: string, attempts: nat, deadLetteredAt: int)

  datatype RecoveryError = BlankReason | CommandReused | NotFound | NotDeadLettered

  predicate ReasonOk(reason: string) { 1 <= |reason| <= 10_000 }

  class OutboxTable {
    var rows: map<DedupKey, Message>
    var recoveries: map<Id, Recovery>

    /** temporal/dispatcher.py _claim. Locked rows are skipped, so any claimable row of the
        tenant may be the one a dispatcher gets. */
    method Claim(key: DedupKey, token: Id, now: int, c: Config) returns (r: Option<ClaimedMessage>)
      modifies this`rows
      ensures r.Some? <==> key in old(rows) && Claimable(old(rows)[key], now, c)
      ensures r.Some? ==> rows == old(rows)[key := ClaimRow(old(rows)[key], token, now)] &&
                          r.value == ClaimedMessage(key, token, rows[key].attempts)
      ensures r.None? ==> rows == old(rows)
    {
      if key !in rows { return None; }
      var stored := rows[key];
      if stored.availableAt > now { return None; }
      if !(stored.status.Pending? || Stale(stored, now, c)) { return None; }
      stored := stored.(status := Publishing, claimedAt := Some(now), token := Some(token));
      stored := stored.(attempts := stored.attempts + 1);
      rows := rows[key := stored];
      r := Some(ClaimedMessage(key, token, stored.attempts));
    }

    /** The conditional update after a successful start-with-signal. */
    method Complete(m: ClaimedMessage) returns (r: DispatchStatus)
      modifies this`rows
      ensures r == WasPublished <==> m.key in old(rows) && HeldBy(old(rows)[m.key], m.token)
      ensures r == WasPublished ==> rows == old(rows)[m.key := PublishRow(old(rows)[m.key])]
      ensures r != WasPublished ==> r == ClaimLost && rows == old(rows)
    {
      if m.key !in rows || !HeldBy(rows[m.key], m.token) { return ClaimLost; }
      rows := rows[m.key := rows[m.key].(status := Published, claimedAt := None, token := None,
                                         deadLetteredAt := None)];
      r := WasPublished;
    }

    /** temporal/dispatcher.py _record_failure. */
    method RecordFailure(m: ClaimedMessage, now: int, c: Config) returns (r: DispatchStatus)
      modifies this`rows
      ensures r == ClaimLost <==> !(m.key in old(rows) && HeldBy(old(rows)[m.key], m.token))
      ensures r == ClaimLost ==> rows == old(rows)
      ensures r != ClaimLost ==>
                rows == old(rows)[m.key := FailRow(old(rows)[m.key], m.attempts, now, c)] &&
                (r == DeadLettered <==> m.attempts >= c.maxAttempts) &&
                (r == RetryScheduled <==> m.attempts < c.maxAttempts)
    {
      var terminal := m.attempts >= c.maxAttempts;
      var nextAvailableAt := now;
      if !terminal {
        var multiplier := Power2(if m.attempts == 0 then 0 else m.attempts - 1);
        nextAvailableAt := now + c.baseDelay * multiplier;
      }
      if m.key !in rows || !HeldBy(rows[m.key], m.token) { return ClaimLost; }
      rows := rows[m.key := rows[m.key].(
        status := if terminal then DeadLetter else Pending,
        claimedAt := None,
        token := None,
        availableAt := nextAvailableAt,
        deadLetteredAt := if terminal then Some(now) else None)];
      r := if terminal then DeadLettered else RetryScheduled;
    }

    /** events/outbox_recovery.py requeue: a replayed command changes nothing; a new one
        resets a dead letter and keeps the exhausted cycle as evidence. */
    method Requeue(command: Id, key: DedupKey, actor: Id, reason: string, now: int)
      returns (error: Option<RecoveryError>)
      modifies this
      ensures error.Some? || command in old(recoveries) ==>
                rows == old(rows) && recoveries == old(recoveries)
      ensures error.None? && command !in old(recoveries) ==>
                key in old(rows) && old(rows)[key].status.DeadLetter? &&
                old(rows)[key].deadLetteredAt.Some? &&
                rows == old(rows)[key := RequeueRow(old(rows)[key], now)] &&
                recoveries == old(recoveries)[command := Recovery(
                  key, actor, reason, old(rows)[key].attempts, old(rows)[key].deadLetteredAt.value)]
      ensures error.None? && command in old(recoveries) ==>
                var stored := old(recoveries)[command];
                stored.message == key && stored.actor == actor && stored.reason == reason
      ensures error == Some(BlankReason) <==> |reason| == 0 || |reason| > 10_000
      ensures error == Some(RecoveryError.CommandReused) <==>
                ReasonOk(reason) && command in old(recoveries) &&
                var stored := old(recoveries)[command];
                (stored.message != key || stored.actor != actor || stored.reason != reason)
      ensures error == Some(RecoveryError.NotFound) <==>
                ReasonOk(reason) && command !in old(recoveries) && key !in old(rows)
      ensures error == Some(NotDeadLettered) <==>
                ReasonOk(reason) && command !in old(recoveries) && key in old(rows) &&
                (!old(rows)[key].status.DeadLetter? || old(rows)[key].deadLetteredAt.None?)
    {
      if !ReasonOk(reason) { return Some(BlankReason); }
      if command in recoveries {
        var stored := recoveries[command];
        if stored.message != key || stored.actor != actor || stored.reason != reason {
          return Some(CommandReused);
        }
        return None;
      }
      if key !in rows { return Some(NotFound); }
      var message := rows[key];
      if !message.status.DeadLetter? || message.deadLetteredAt.None? { return Some(NotDeadLettered); }
      recoveries := recoveries[command := Recovery(
        key, actor, reason, message.attempts, message.deadLetteredAt.value)];
      rows := rows[key := message.(status := Pending, availableAt := now, attempts := 0,
                                   claimedAt := None, token := None, deadLetteredAt := None)];
      error := None;
    }
  }

  // ---------------------------------------------------- the delivery protocol

  /** Where one dispatcher stands with its claim. */
  datatype Phase = Sending | Delivered | Refused | Finished

  datatype Claim = Claim(key: DedupKey, attempts: nat, phase: Phase)

  /** The start-with-signal call either reached the workflow or not, and its caller either
      saw success or an error. */
  datatype SignalResult = Accepted | ReplyLost | NotSent

  datatype State = State(
    rows: map<DedupKey, Message>,
    claims: map<Id, Claim>,
    signalled: set<DedupKey>)

  datatype Step =
    | Enqueue(key: DedupKey, process: Id, cause: Option<Id>, at: int)
    | ClaimStep(token: Id, key: DedupKey, at: int)
    | Signal(token: Id, result: SignalResult)
    | Complete(token: Id)
    | Fail(token: Id, at: int)
    | Crash(token: Id)
    | Requeue(key: DedupKey, at: int)

  /** A step that is not enabled leaves the state alone. */
  function Next(s: State, step: Step, c: Config): State {
    match step
    case Enqueue(key, process, cause, at) =>
      if key in s.rows then s else s.(rows := s.rows[key := Fresh(process, cause, at)])
    case ClaimStep(token, key, at) =>
      if token in s.claims || key !in s.rows || !Claimable(s.rows[key], at, c) then s
      else
        var row := ClaimRow(s.rows[key], token, at);
        s.(rows := s.rows[key := row], claims := s.claims[token := Claim(key, row.attempts, Sending)])
    case Signal(token, result) =>
      if token !in s.claims || !s.claims[token].phase.Sending? then s
      else
        var claim := s.claims[token];
        s.(claims := s.claims[token := claim.(phase := if result.Accepted? then Delivered else Refused)],
           signalled := if result.NotSent? then s.signalled else s.signalled + {claim.key})
    case Complete(token) =>
      if token !in s.claims || !s.claims[token].phase.Delivered? then s
      else
        var key := s.claims[token].key;
        s.(claims := s.claims[token := s.claims[token].(phase := Finished)],
           rows := if key in s.rows && HeldBy(s.rows[key], token)
                   then s.rows[key := PublishRow(s.rows[key])] else s.rows)
    case Fail(token, at) =>
      if token !in s.claims || !s.claims[token].phase.Refused? then s
      else
        var key := s.claims[token].key;
        s.(claims := s.claims[token := s.claims[token].(phase := Finished)],
           rows := if key in s.rows && HeldBy(s.rows[key], token)
                   then s.rows[key := FailRow(s.rows[key], s.claims[token].attempts, at, c)] else s.rows)
    case Crash(token) =>
      if token !in s.claims then s
      else s.(claims := s.claims[token := s.claims[token].(phase := Finished)])
    case Requeue(key, at) =>
      if key !in s.rows || !s.rows[key].status.DeadLetter? then s
      else s.(rows := s.rows[key := RequeueRow(s.rows[key], at)])
  }

  /** The table's check constraints, the attempt bounds, and the link to claims and signals. */
  ghost predicate RowOk(s: State, key: DedupKey, c: Config)
    requires key in s.rows
  {
    var m := s.rows[key];
    && (m.status.Publishing? <==> m.claimedAt.Some?)
    && (m.status.Publishing? <==> m.token.Some?)
    && (m.status.DeadLetter? <==> m.deadLetteredAt.Some?)
    && (m.status.Pending? ==> m.attempts < c.maxAttempts)
    && (m.status.DeadLetter? ==> m.attempts >= c.maxAttempts)
    && (m.status.Published? ==> key in s.signalled)
    && (m.status.Publishing? ==>
          m.attempts >= 1 && m.token.value in s.claims &&
          s.claims[m.token.value].key == key && s.claims[m.token.value].attempts == m.attempts)
  }

  ghost predicate Inv(s: State, c: Config) {
    && c.maxAttempts >= 1
    && (forall key :: key in s.rows ==> RowOk(s, key, c))
    && (forall t :: t in s.claims ==> s.claims[t].phase.Delivered? ==> s.claims[t].key in s.signalled)
  }

  lemma NextKeepsInv(s: State, step: Step, c: Config)
    requires Inv(s, c)
    ensures Inv(Next(s, step, c), c)
  {
    hide Power2;
    var after := Next(s, step, c);
    forall key | key in after.rows ensures RowOk(after, key, c) {
      if key in s.rows { assert RowOk(s, key, c); }
    }
  }

  function Run(s: State, steps: seq<Step>, c: Config): State {
    if steps == [] then s else Next(Run(s, steps[..|steps| - 1], c), steps[|steps| - 1], c)
  }

  /** Every reachable state satisfies the delivery invariant. */
  lemma {:induction false} RunKeepsInv(s: State, steps: seq<Step>, c: Config)
    requires Inv(s, c)
    ensures Inv(Run(s, steps, c), c)
  {
    if steps != [] {
      RunKeepsInv(s, steps[..|steps| - 1], c);
      NextKeepsInv(Run(s, steps[..|steps| - 1], c), steps[|steps| - 1], c);
    }
  }

  /** Only the holder of the current token changes a publishing row, unless the claim is stale. */
  lemma OnlyHolderChanges(s: State, step: Step, c: Config, key: DedupKey)
    requires Inv(s, c) && key in s.rows && s.rows[key].status.Publishing?
    requires Next(s, step, c).rows[key] != s.rows[key]
    ensures ((step.Complete? || step.Fail?) && s.rows[key].token == Some(step.token)) ||
            (step.ClaimStep? && step.key == key && Stale(s.rows[key], step.at, c))
  {
    assert RowOk(s, key, c);
  }

  /** Rows are never dropped, published rows never change, and each was signalled. */
  lemma {:induction false} PublishedIsFinal(s: State, steps: seq<Step>, c: Config, key: DedupKey)
    requires Inv(s, c) && key in s.rows
    ensures key in Run(s, steps, c).rows
    ensures s.rows[key].status.Published? ==>
            Run(s, steps, c).rows[key] == s.rows[key] && key in Run(s, steps, c).signalled
  {
    if steps == [] {
      assert RowOk(s, key, c);
    } else {
      PublishedIsFinal(s, steps[..|steps| - 1], c, key);
    }
  }

  // ------------------------------------------------------------ bounded cycles

  /** How many claims the run takes on one row. */
  ghost function ClaimsOf(s: State, steps: seq<Step>, c: Config, key: DedupKey): nat {
    if steps == [] then 0
    else
      var before, step := Run(s, steps[..|steps| - 1], c), steps[|steps| - 1];
      ClaimsOf(s, steps[..|steps| - 1], c, key) +
      if step.ClaimStep? && step.key == key && Next(before, step, c) != before then 1 else 0
  }

  /** No reclaim of a stale claim and no requeue of the row: one crash-free delivery cycle. */
  ghost predicate CrashFreeCycle(s: State, steps: seq<Step>, c: Config, key: DedupKey) {
    steps != [] ==>
      var before, step := Run(s, steps[..|steps| - 1], c), steps[|steps| - 1];
      && CrashFreeCycle(s, steps[..|steps| - 1], c, key)
      && !(step.Requeue? && step.key == key)
      && !(step.ClaimStep? && step.key == key && key in before.rows && before.rows[key].status.Publishing?)
  }

  lemma CycleStep(s: State, step: Step, c: Config, key: DedupKey)
    requires Inv(s, c) && key in s.rows && s.rows[key].attempts <= c.maxAttempts
    requires !(step.Requeue? && step.key == key)
    requires !(step.ClaimStep? && step.key == key && s.rows[key].status.Publishing?)
    ensures var after := Next(s, step, c);
            && key in after.rows
            && after.rows[key].attempts == s.rows[key].attempts +
                 (if step.ClaimStep? && step.key == key && after != s then 1 else 0)
            && after.rows[key].attempts <= c.maxAttempts
            && (after.rows[key].attempts == c.maxAttempts ==> !after.rows[key].status.Pending?)
  {
    hide Power2;
    NextKeepsInv(s, step, c);
    assert RowOk(s, key, c) && RowOk(Next(s, step, c), key, c);
  }

  /** A crash-free cycle takes at most the maximum number of attempts: its claims are exactly
      counted by the row, and a row that used them all is never pending again. */
  lemma {:induction false} CycleIsBounded(s: State, steps: seq<Step>, c: Config, key: DedupKey)
    requires Inv(s, c) && key in s.rows && s.rows[key].attempts <= c.maxAttempts
    requires CrashFreeCycle(s, steps, c, key)
    ensures var last := Run(s, steps, c);
            key in last.rows &&
            last.rows[key].attempts == s.rows[key].attempts + ClaimsOf(s, steps, c, key) <= c.maxAttempts &&
            (last.rows[key].attempts == c.maxAttempts ==> !last.rows[key].status.Pending?)
  {
    hide Next;
    if steps != [] {
      CycleIsBounded(s, steps[..|steps| - 1], c, key);
      RunKeepsInv(s, steps[..|steps| - 1], c);
      CycleStep(Run(s, steps[..|steps| - 1], c), steps[|steps| - 1], c, key);
    } else {
      assert RowOk(s, key, c);
    }
  }

  // ------------------------------------------------------------------ timing

  /** When a row may be claimed at all. */
  ghost predicate DueFrom(m: Message, at: int, c: Config) {
    forall later :: Claimable(m, later, c) <==> at <= later
  }

  ghost predicate NeverDue(m: Message, c: Config) {
    forall later :: !Claimable(m, later, c)
  }

  /** A claim counts one attempt, is held by its token alone, and keeps others away until it is
      older than the stale limit. */
  lemma ClaimHolds(m: Message, token: Id, now: int, c: Config)
    ensures var row := ClaimRow(m, token, now);
            && row.attempts == m.attempts + 1 && row.process == m.process && row.cause == m.cause
            && (forall t :: HeldBy(row, t) <==> t == token)
            && (forall later :: Claimable(row, later, c) <==> m.availableAt <= later && now + c.staleAfter < later)
  {}

  /** A published row is held by nobody and never claimed again. */
  lemma PublishEnds(m: Message, c: Config)
    ensures var row := PublishRow(m);
            NeverDue(row, c) && (forall t :: !HeldBy(row, t)) && row.attempts == m.attempts && row.process == m.process
  {}

  /** The first failure waits for the base delay and each further one twice as long as the one
      before; until then nobody claims the row. */
  lemma DelayDoubles(m: Message, attempts: nat, now: int, c: Config)
    requires 1 <= attempts < c.maxAttempts
    ensures var row := FailRow(m, attempts, now, c);
            && row.status.Pending? && DueFrom(row, row.availableAt, c) && (forall t :: !HeldBy(row, t))
            && row.attempts == m.attempts && row.process == m.process && row.cause == m.cause
            && (attempts == 1 ==> row.availableAt == now + c.baseDelay)
            && (attempts > 1 ==>
                  row.availableAt - now == 2 * (FailRow(m, attempts - 1, now, c).availableAt - now))
  {
    var row := FailRow(m, attempts, now, c);
    if attempts > 1 {
      assert Power2(attempts - 1) == 2 * Power2(attempts - 2);
    } else {
      assert Power2(0) == 1;
    }
  }

  /** The last failure ends the cycle: nobody claims the row until it is requeued, and then it is
      like new. */
  lemma LastFailureEnds(m: Message, attempts: nat, now: int, later: int, c: Config)
    requires attempts >= c.maxAttempts
    ensures var row := FailRow(m, attempts, now, c);
            && row.status.DeadLetter? && row.deadLetteredAt == Some(now) && NeverDue(row, c)
            && row.attempts == m.attempts
            && RequeueRow(row, later) == Message(m.process, m.cause, Pending, 0, later, None, None, None)
            && DueFrom(RequeueRow(row, later), later, c)
  {}

  // ---------------------------------------------------------------- progress

  function Steps(s: State, a: Step, b: Step, d: Step, c: Config): State {
    Next(Next(Next(s, a, c), b, c), d, c)
  }

  /** A due row under a new token: a signal that was accepted publishes it, one that was not sent
      fails it under the attempts of this claim, and a crashed dispatcher leaves it claimed. */
  lemma DeliveryProgresses(s: State, key: DedupKey, token: Id, at: int, later: int, c: Config)
    requires key in s.rows && Claimable(s.rows[key], at, c) && token !in s.claims
    ensures var claimed, claim := ClaimRow(s.rows[key], token, at), ClaimStep(token, key, at);
            var sent := Steps(s, claim, Signal(token, SignalResult.Accepted), Complete(token), c);
            var refused := Steps(s, claim, Signal(token, NotSent), Fail(token, later), c);
            var lost := Steps(s, claim, Signal(token, ReplyLost), Fail(token, later), c);
            && Next(s, claim, c).rows == s.rows[key := claimed]
            && sent.rows == s.rows[key := PublishRow(claimed)] && sent.signalled == s.signalled + {key}
            && refused.rows == s.rows[key := FailRow(claimed, claimed.attempts, later, c)]
            && refused.signalled == s.signalled
            && lost.rows == refused.rows && lost.signalled == s.signalled + {key}
            && Steps(s, claim, Crash(token), Complete(token), c).rows == s.rows[key := claimed]
  {
    hide FailRow, PublishRow, Claimable;
    assert s.rows[key := ClaimRow(s.rows[key], token, at)][key := s.rows[key]] == s.rows;
  }

  /** A requeued dead letter is due again. */
  lemma RequeueProgresses(s: State, key: DedupKey, at: int, c: Config)
    requires key in s.rows && s.rows[key].status.DeadLetter?
    ensures var row := Next(s, Requeue(key, at), c).rows[key]; DueFrom(row, at, c) && row.attempts == 0
  {}
}
