/** The customer-contact policy and what it guarantees over whole contact histories. */
module Communications {
  import opened Contracts
  import opened QuietHours

  datatype Policy = Policy(
    outboundTypes: set<string>,
    replyTypes: set<string>,
    optOutTypes: set<string>,
    automatedTypes: set<string>,
    quietHours: Option<DailyQuietHours>,
    maxFollowUps: nat,
    minimumInterval: nat,
    maxPerProcess: nat,
    maxPerWindow: nat,
    window: nat,
    lifetime: nat)

  datatype Facts = Facts(
    createdAt: int,
    outbound: seq<int>,
    prior: Option<seq<int>>,
    lastReply: Option<int>,
    automatedAt: Option<int>,
    optedOutAt: Option<int>,
    reserveNext: bool)

  datatype BlockCode =
    | ProcessExpired | OptedOut | AutomatedLoop | Quiet
    | ProcessLimit | RateLimit | FollowUpLimit | MinimumInterval

  datatype Block = Block(code: BlockCode, nextAllowedAt: Option<int>)

  predicate After(value: int, bound: Option<int>) {
    bound.None? || value > bound.value
  }

  /** How many times lie strictly after the bound; all of them without a bound. */
  function CountAfter(times: seq<int>, bound: Option<int>): (n: nat)
    ensures n <= |times|
  {
    if times == [] then 0
    else CountAfter(times[..|times| - 1], bound) + if After(times[|times| - 1], bound) then 1 else 0
  }

  function LatestAfter(times: seq<int>, bound: Option<int>): (r: Option<int>)
    ensures r.Some? ==> After(r.value, bound) && exists i :: 0 <= i < |times| && times[i] == r.value
    ensures forall i :: 0 <= i < |times| && After(times[i], bound) ==> r.Some? && times[i] <= r.value
  {
    if times == [] then None
    else
      var last := times[|times| - 1];
      var rest := LatestAfter(times[..|times| - 1], bound);
      if After(last, bound) && (rest.None? || rest.value < last) then Some(last) else rest
  }

  function EarliestAfter(times: seq<int>, bound: int): (r: Option<int>)
    ensures r.Some? ==> r.value > bound && exists i :: 0 <= i < |times| && times[i] == r.value
    ensures forall i :: 0 <= i < |times| && times[i] > bound ==> r.Some? && r.value <= times[i]
  {
    if times == [] then None
    else
      var last := times[|times| - 1];
      var rest := EarliestAfter(times[..|times| - 1], bound);
      if last > bound && (rest.None? || last < rest.value) then Some(last) else rest
  }

  function Prior(f: Facts): seq<int> {
    if f.prior.Some? then f.prior.value else f.outbound
  }

  function Reservation(f: Facts): nat { if f.reserveNext then 1 else 0 }

  // ------------------------------------------------------------ each block

  function LifetimeBlock(createdAt: int, p: Policy, now: int): Option<Block> {
    if now < createdAt + p.lifetime then None else Some(Block(ProcessExpired, None))
  }

  predicate ProcessLimitHit(p: Policy, f: Facts) {
    |f.outbound| + Reservation(f) > p.maxPerProcess
  }

  predicate RateLimitHit(p: Policy, f: Facts, now: int) {
    CountAfter(f.outbound, Some(now - p.window)) + Reservation(f) > p.maxPerWindow
  }

  predicate FollowUpLimitHit(p: Policy, f: Facts) {
    CountAfter(f.outbound, f.lastReply) + Reservation(f) > p.maxFollowUps
  }

  predicate IntervalHit(p: Policy, f: Facts, now: int) {
    var latest := LatestAfter(Prior(f), f.lastReply);
    latest.Some? && now < latest.value + p.minimumInterval
  }

  function RateClearsAt(p: Policy, f: Facts, now: int): Option<int> {
    var first := EarliestAfter(f.outbound, now - p.window);
    if first.Some? then Some(first.value + p.window) else None
  }

  function When(hit: bool, b: Block): seq<Block> {
    if hit then [b] else []
  }

  function IntervalEndsAt(p: Policy, f: Facts): Option<int> {
    var latest := LatestAfter(Prior(f), f.lastReply);
    if latest.Some? then Some(latest.value + p.minimumInterval) else None
  }

  /** Every block that applies, in the order in which callers report the first one. */
  function BlockList(p: Policy, f: Facts, now: int): seq<Block> {
    [] +
    When(now >= f.createdAt + p.lifetime, Block(ProcessExpired, None)) +
    When(f.optedOutAt.Some?, Block(OptedOut, None)) +
    When(f.automatedAt.Some?, Block(AutomatedLoop, None)) +
    When(QuietEnd(p.quietHours, now).Some?, Block(Quiet, QuietEnd(p.quietHours, now))) +
    When(ProcessLimitHit(p, f), Block(ProcessLimit, None)) +
    When(RateLimitHit(p, f, now), Block(RateLimit, RateClearsAt(p, f, now))) +
    When(FollowUpLimitHit(p, f), Block(FollowUpLimit, None)) +
    When(IntervalHit(p, f, now), Block(MinimumInterval, IntervalEndsAt(p, f)))
  }

  /** None of the eight conditions holds. */
  predicate Allowed(p: Policy, f: Facts, now: int) {
    && now < f.createdAt + p.lifetime
    && f.optedOutAt.None? && f.automatedAt.None? && QuietEnd(p.quietHours, now).None?
    && !ProcessLimitHit(p, f) && !RateLimitHit(p, f, now)
    && !FollowUpLimitHit(p, f) && !IntervalHit(p, f, now)
  }

  method EvaluateCommunicationSafety(p: Policy, f: Facts, now: int) returns (blocks: seq<Block>)
    ensures blocks == BlockList(p, f, now)
    ensures blocks == [] <==> Allowed(p, f, now)
  {
    var quietEnd := QuietHoursEnd(p.quietHours, now);
    var latestPrior := LatestAfter(Prior(f), f.lastReply);
    blocks := [];
    blocks := blocks + When(LifetimeBlock(f.createdAt, p, now).Some?, Block(ProcessExpired, None));
    blocks := blocks + When(f.optedOutAt.Some?, Block(OptedOut, None));
    blocks := blocks + When(f.automatedAt.Some?, Block(AutomatedLoop, None));
    blocks := blocks + When(quietEnd.Some?, Block(Quiet, quietEnd));
    blocks := blocks + When(|f.outbound| + Reservation(f) > p.maxPerProcess, Block(ProcessLimit, None));
    var inWindow := CountAfter(f.outbound, Some(now - p.window));
    blocks := blocks +
      When(inWindow + Reservation(f) > p.maxPerWindow, Block(RateLimit, RateClearsAt(p, f, now)));
    var sinceReply := CountAfter(f.outbound, f.lastReply);
    blocks := blocks + When(sinceReply + Reservation(f) > p.maxFollowUps, Block(FollowUpLimit, None));
    blocks := blocks + When(latestPrior.Some? && now < latestPrior.value + p.minimumInterval,
                            Block(MinimumInterval, IntervalEndsAt(p, f)));
    NoBlocksIsAllowed(p, f, now);
  }

  /** An empty block list is permission and nothing less. */
  lemma NoBlocksIsAllowed(p: Policy, f: Facts, now: int)
    ensures BlockList(p, f, now) == [] <==> Allowed(p, f, now)
  {
    assert |BlockList(p, f, now)| ==
      |When(now >= f.createdAt + p.lifetime, Block(ProcessExpired, None))| +
      |When(f.optedOutAt.Some?, Block(OptedOut, None))| +
      |When(f.automatedAt.Some?, Block(AutomatedLoop, None))| +
      |When(QuietEnd(p.quietHours, now).Some?, Block(Quiet, QuietEnd(p.quietHours, now)))| +
      |When(ProcessLimitHit(p, f), Block(ProcessLimit, None))| +
      |When(RateLimitHit(p, f, now), Block(RateLimit, RateClearsAt(p, f, now)))| +
      |When(FollowUpLimitHit(p, f), Block(FollowUpLimit, None))| +
      |When(IntervalHit(p, f, now), Block(MinimumInterval, IntervalEndsAt(p, f)))|;
  }

  // ----------------------------------------------------- what is reported

  /** The times strictly after the bound, by position. */
  ghost function Later(times: seq<int>, bound: Option<int>): set<int> {
    set i | 0 <= i < |times| && (bound.Some? ==> times[i] > bound.value)
  }

  lemma {:induction false} CountIsCardinality(times: seq<int>, bound: Option<int>)
    ensures CountAfter(times, bound) == |Later(times, bound)|
  {
    if times != [] {
      var n := |times| - 1;
      CountIsCardinality(times[..n], bound);
      var rest := Later(times[..n], bound);
      assert n !in rest;
      if After(times[n], bound) {
        assert Later(times, bound) == rest + {n};
      } else {
        assert Later(times, bound) == rest;
      }
    }
  }

  /** The message under consideration and those already sent are more than the limit. */
  ghost predicate Exceeds(sent: set<int>, f: Facts, limit: nat) {
    if f.reserveNext then |sent| >= limit else |sent| > limit
  }

  /** The latest message since the reply was sent at `at`. */
  ghost predicate LastSent(f: Facts, at: int) {
    var times := if f.prior.Some? then f.prior.value else f.outbound;
    && (exists i :: i in Later(times, f.lastReply) && times[i] == at)
    && (forall i :: i in Later(times, f.lastReply) ==> times[i] <= at)
  }

  /** The first message that still counts in the window leaves it at `at`. */
  ghost predicate FirstLeaves(p: Policy, f: Facts, now: int, at: int) {
    var counted := Later(f.outbound, Some(now - p.window));
    && (exists i :: i in counted && f.outbound[i] + p.window == at)
    && (forall i :: i in counted ==> at <= f.outbound[i] + p.window)
  }

  /** The contact evidence warrants the block: its code and the time it names. */
  ghost predicate Warranted(b: Block, p: Policy, f: Facts, now: int) {
    match b.code
    case ProcessExpired => now - f.createdAt >= p.lifetime && b.nextAllowedAt.None?
    case OptedOut => f.optedOutAt.Some? && b.nextAllowedAt.None?
    case AutomatedLoop => f.automatedAt.Some? && b.nextAllowedAt.None?
    case Quiet => QuietEnd(p.quietHours, now).Some? && b.nextAllowedAt == QuietEnd(p.quietHours, now)
    case ProcessLimit =>
      b.nextAllowedAt.None? && if f.reserveNext then |f.outbound| >= p.maxPerProcess else |f.outbound| > p.maxPerProcess
    case RateLimit =>
      && Exceeds(Later(f.outbound, Some(now - p.window)), f, p.maxPerWindow)
      && if b.nextAllowedAt.Some? then FirstLeaves(p, f, now, b.nextAllowedAt.value)
         else Later(f.outbound, Some(now - p.window)) == {}
    case FollowUpLimit => Exceeds(Later(f.outbound, f.lastReply), f, p.maxFollowUps) && b.nextAllowedAt.None?
    case MinimumInterval =>
      b.nextAllowedAt.Some? && now < b.nextAllowedAt.value && LastSent(f, b.nextAllowedAt.value - p.minimumInterval)
  }

  lemma InWhen(b: Block)
    ensures forall hit, c :: b in When(hit, c) <==> hit && b == c
  {}

  lemma RateBlockExactly(b: Block, p: Policy, f: Facts, now: int)
    requires b.code.RateLimit?
    ensures Warranted(b, p, f, now) <==> RateLimitHit(p, f, now) && b.nextAllowedAt == RateClearsAt(p, f, now)
  {
    var first := EarliestAfter(f.outbound, now - p.window);
    var counted := Later(f.outbound, Some(now - p.window));
    CountIsCardinality(f.outbound, Some(now - p.window));
    if first.Some? {
      var i :| 0 <= i < |f.outbound| && f.outbound[i] == first.value;
      assert i in counted;
      assert FirstLeaves(p, f, now, first.value + p.window);
    } else {
      assert counted == {};
    }
  }

  lemma LatestIsLastSent(f: Facts)
    ensures var latest := LatestAfter(Prior(f), f.lastReply); latest.Some? ==> LastSent(f, latest.value)
  {
    var latest := LatestAfter(Prior(f), f.lastReply);
    if latest.Some? {
      var i :| 0 <= i < |Prior(f)| && Prior(f)[i] == latest.value;
      assert i in Later(Prior(f), f.lastReply);
    }
  }

  lemma LastSentIsLatest(f: Facts, at: int)
    ensures LastSent(f, at) <==> LatestAfter(Prior(f), f.lastReply) == Some(at)
  {
    LatestIsLastSent(f);
    if LastSent(f, at) { LastSentBounds(f, at, LatestAfter(Prior(f), f.lastReply)); }
  }

  lemma LastSentBounds(f: Facts, at: int, latest: Option<int>)
    requires LastSent(f, at) && (latest.Some? ==> LastSent(f, latest.value))
    requires forall i :: i in Later(Prior(f), f.lastReply) ==> latest.Some? && Prior(f)[i] <= latest.value
    ensures latest == Some(at)
  {
    var i :| i in Later(Prior(f), f.lastReply) && Prior(f)[i] == at;
    if latest.Some? {
      var k :| k in Later(Prior(f), f.lastReply) && Prior(f)[k] == latest.value;
      assert Prior(f)[k] <= at;
    }
  }

  lemma IntervalBlockExactly(b: Block, p: Policy, f: Facts, now: int)
    requires b.code.MinimumInterval?
    ensures Warranted(b, p, f, now) <==> IntervalHit(p, f, now) && b.nextAllowedAt == IntervalEndsAt(p, f)
  {
    hide LastSent;
    if b.nextAllowedAt.Some? { LastSentIsLatest(f, b.nextAllowedAt.value - p.minimumInterval); }
  }

  /** A block is reported exactly when the evidence warrants it, with the time it warrants; the
      lifetime block that callers check on its own is the one in the list. */
  lemma BlocksExactly(p: Policy, f: Facts, now: int, b: Block)
    ensures b in BlockList(p, f, now) <==> Warranted(b, p, f, now)
    ensures LifetimeBlock(f.createdAt, p, now) == Some(b) <==> b.code.ProcessExpired? && b in BlockList(p, f, now)
  {
    hide When, RateLimitHit, FollowUpLimitHit, IntervalHit, RateClearsAt, IntervalEndsAt;
    InWhen(b);
    match b.code {
      case RateLimit => RateBlockExactly(b, p, f, now);
      case MinimumInterval => IntervalBlockExactly(b, p, f, now);
      case FollowUpLimit => FollowUpsAreCounted(p, f);
      case _ =>
    }
  }

  function Rank(code: BlockCode): nat {
    match code
    case ProcessExpired => 0 case OptedOut => 1 case AutomatedLoop => 2 case Quiet => 3
    case ProcessLimit => 4 case RateLimit => 5 case FollowUpLimit => 6 case MinimumInterval => 7
  }

  ghost predicate Ranked(blocks: seq<Block>, below: nat) {
    && (forall i :: 0 <= i < |blocks| ==> Rank(blocks[i].code) < below)
    && (forall i, j :: 0 <= i < j < |blocks| ==> Rank(blocks[i].code) < Rank(blocks[j].code))
  }

  lemma NextBlock(blocks: seq<Block>, hit: bool, b: Block) returns (more: seq<Block>)
    requires Ranked(blocks, Rank(b.code))
    ensures more == blocks + When(hit, b) && Ranked(more, Rank(b.code) + 1)
  {
    more := blocks + When(hit, b);
  }

  lemma NothingRanked()
    ensures Ranked([], 0)
  {}

  /** Every code is reported at most once, and the codes in the order of their declaration. */
  lemma BlocksAreRanked(p: Policy, f: Facts, now: int)
    ensures Ranked(BlockList(p, f, now), 8)
  {
    hide Ranked, When, RateLimitHit, FollowUpLimitHit, IntervalHit, ProcessLimitHit, RateClearsAt, IntervalEndsAt;
    NothingRanked();
    var blocks := NextBlock([], now >= f.createdAt + p.lifetime, Block(ProcessExpired, None));
    blocks := NextBlock(blocks, f.optedOutAt.Some?, Block(OptedOut, None));
    blocks := NextBlock(blocks, f.automatedAt.Some?, Block(AutomatedLoop, None));
    blocks := NextBlock(blocks, QuietEnd(p.quietHours, now).Some?, Block(Quiet, QuietEnd(p.quietHours, now)));
    blocks := NextBlock(blocks, ProcessLimitHit(p, f), Block(ProcessLimit, None));
    blocks := NextBlock(blocks, RateLimitHit(p, f, now), Block(RateLimit, RateClearsAt(p, f, now)));
    blocks := NextBlock(blocks, FollowUpLimitHit(p, f), Block(FollowUpLimit, None));
    blocks := NextBlock(blocks, IntervalHit(p, f, now), Block(MinimumInterval, IntervalEndsAt(p, f)));
  }

  lemma FollowUpsAreCounted(p: Policy, f: Facts)
    ensures FollowUpLimitHit(p, f) <==> Exceeds(Later(f.outbound, f.lastReply), f, p.maxFollowUps)
  {
    CountIsCardinality(f.outbound, f.lastReply);
  }

  // ------------------------------------------------------- counting lemmas

  lemma {:induction false} CountAfterAppend(times: seq<int>, t: int, bound: Option<int>)
    ensures CountAfter(times + [t], bound) == CountAfter(times, bound) + if After(t, bound) then 1 else 0
  {
    assert (times + [t])[..|times|] == times;
  }

  /** A later bound counts no more. */
  lemma {:induction false} CountAfterMonotone(times: seq<int>, low: Option<int>, high: Option<int>)
    requires low.Some? ==> high.Some? && low.value <= high.value
    ensures CountAfter(times, high) <= CountAfter(times, low)
  {
    if times != [] { CountAfterMonotone(times[..|times| - 1], low, high); }
  }

  /** Raising the bound past a counted time loses it. */
  lemma {:induction false} CountAfterStrict(times: seq<int>, i: nat, low: int, high: int)
    requires low <= high && i < |times| && low < times[i] <= high
    ensures CountAfter(times, Some(high)) < CountAfter(times, Some(low))
  {
    var n := |times| - 1;
    CountAfterMonotone(times[..n], Some(low), Some(high));
    if i < n { CountAfterStrict(times[..n], i, low, high); }
  }

  lemma {:induction false} CountAfterSame(times: seq<int>, low: int, high: int)
    requires low <= high
    requires forall i :: 0 <= i < |times| && low < times[i] ==> high < times[i]
    ensures CountAfter(times, Some(high)) == CountAfter(times, Some(low))
  {
    if times != [] { CountAfterSame(times[..|times| - 1], low, high); }
  }

  lemma {:induction false} NoneAfter(times: seq<int>, bound: int)
    requires forall i :: 0 <= i < |times| ==> times[i] <= bound
    ensures CountAfter(times, Some(bound)) == 0
  {
    if times != [] { NoneAfter(times[..|times| - 1], bound); }
  }

  /** When the window is exactly full, the reported time is the earliest at which the rate
      block clears. */
  lemma RateBlockClearsExactly(p: Policy, f: Facts, now: int, later: int)
    requires f.reserveNext && p.maxPerWindow >= 1
    requires CountAfter(f.outbound, Some(now - p.window)) == p.maxPerWindow
    requires now <= later
    ensures RateClearsAt(p, f, now).Some?
    ensures RateLimitHit(p, f, later) <==> later < RateClearsAt(p, f, now).value
  {
    if EarliestAfter(f.outbound, now - p.window).None? {
      NoneAfter(f.outbound, now - p.window);
    }
    var clears := RateClearsAt(p, f, now).value;
    if later < clears {
      CountAfterSame(f.outbound, now - p.window, later - p.window);
    } else {
      var i :| 0 <= i < |f.outbound| && f.outbound[i] + p.window == clears;
      CountAfterStrict(f.outbound, i, now - p.window, later - p.window);
    }
  }

  // -------------------------------------------------------- contact history

  datatype Contact = Send(at: int) | Reply(at: int) | AutoReply(at: int) | OptOut(at: int)

  function Sends(h: seq<Contact>): seq<int> {
    if h == [] then []
    else
      var rest := Sends(h[..|h| - 1]);
      if h[|h| - 1].Send? then rest + [h[|h| - 1].at] else rest
  }

  function LastReply(h: seq<Contact>): Option<int> {
    if h == [] then None
    else if h[|h| - 1].Reply? then Some(h[|h| - 1].at)
    else LastReply(h[..|h| - 1])
  }

  /** An automated response stands until the next human reply. */
  function StandingAutoReply(h: seq<Contact>): Option<int> {
    if h == [] || h[|h| - 1].Reply? then None
    else if h[|h| - 1].AutoReply? then Some(h[|h| - 1].at)
    else StandingAutoReply(h[..|h| - 1])
  }

  function LastOptOut(h: seq<Contact>): Option<int> {
    if h == [] then None
    else if h[|h| - 1].OptOut? then Some(h[|h| - 1].at)
    else LastOptOut(h[..|h| - 1])
  }

  function FactsOf(createdAt: int, h: seq<Contact>): Facts {
    Facts(createdAt, Sends(h), None, LastReply(h), StandingAutoReply(h), LastOptOut(h), true)
  }

  /** What one more contact does to the facts. */
  function Noted(f: Facts, c: Contact): Facts {
    match c
    case Send(at) => f.(outbound := f.outbound + [at])
    case Reply(at) => f.(lastReply := Some(at), automatedAt := None)
    case AutoReply(at) => f.(automatedAt := Some(at))
    case OptOut(at) => f.(optedOutAt := Some(at))
  }

  lemma FactsExtend(createdAt: int, h: seq<Contact>, c: Contact)
    ensures FactsOf(createdAt, h + [c]) == Noted(FactsOf(createdAt, h), c)
  {
    assert (h + [c])[..|h|] == h;
  }

  /** A history on a nondecreasing clock in which every send was admitted by the policy. */
  ghost predicate Admitted(p: Policy, createdAt: int, h: seq<Contact>) {
    h != [] ==>
      && Admitted(p, createdAt, h[..|h| - 1])
      && (|h| >= 2 ==> h[|h| - 2].at <= h[|h| - 1].at)
      && (h[|h| - 1].Send? ==> Allowed(p, FactsOf(createdAt, h[..|h| - 1]), h[|h| - 1].at))
  }

  function CountWithin(times: seq<int>, low: int, high: int): nat {
    if times == [] then 0
    else CountWithin(times[..|times| - 1], low, high) +
         if low < times[|times| - 1] <= high then 1 else 0
  }

  lemma {:induction false} WithinIsCardinality(times: seq<int>, low: int, high: int)
    ensures CountWithin(times, low, high) == |set i | 0 <= i < |times| && low < times[i] && times[i] <= high|
  {
    if times != [] {
      var n := |times| - 1;
      WithinIsCardinality(times[..n], low, high);
      var rest := set i | 0 <= i < n && low < times[..n][i] && times[..n][i] <= high;
      var all := set i | 0 <= i < |times| && low < times[i] && times[i] <= high;
      if low < times[n] <= high {
        assert all == rest + {n};
      } else {
        assert all == rest;
      }
    }
  }

  lemma {:induction false} WithinIsAfter(times: seq<int>, low: int, high: int)
    ensures CountWithin(times, low, high) <= CountAfter(times, Some(low))
  {
    if times != [] { WithinIsAfter(times[..|times| - 1], low, high); }
  }

  lemma WindowAfterSend(p: Policy, times: seq<int>, now: int, t: int)
    requires CountAfter(times, Some(now - p.window)) + 1 <= p.maxPerWindow
    requires CountWithin(times, t - p.window, t) <= p.maxPerWindow
    ensures CountWithin(times + [now], t - p.window, t) <= p.maxPerWindow
  {
    assert (times + [now])[..|times|] == times;
    if t - p.window < now <= t {
      WithinIsAfter(times, t - p.window, t);
      CountAfterMonotone(times, Some(now - p.window), Some(t - p.window));
    }
  }

  /** Every rolling window holds at most the window limit, at every instant. */
  lemma {:induction false} WindowLimitHolds(p: Policy, createdAt: int, h: seq<Contact>, t: int)
    requires Admitted(p, createdAt, h)
    ensures CountWithin(Sends(h), t - p.window, t) <= p.maxPerWindow
  {
    hide QuietEnd;
    if h != [] {
      var before, last := h[..|h| - 1], h[|h| - 1];
      WindowLimitHolds(p, createdAt, before, t);
      var times := Sends(before);
      if last.Send? {
        assert !RateLimitHit(p, FactsOf(createdAt, before), last.at);
        WindowAfterSend(p, times, last.at, t);
      }
    }
  }

  /** The process total stays in its limit, and no send is admitted after an opt-out, while
      an automated response stands, or after the process lifetime. */
  lemma {:induction false} TotalsHold(p: Policy, createdAt: int, h: seq<Contact>)
    requires Admitted(p, createdAt, h)
    ensures |Sends(h)| <= p.maxPerProcess
    ensures forall i :: 0 <= i < |h| && h[i].Send? ==>
              LastOptOut(h[..i]).None? && StandingAutoReply(h[..i]).None? &&
              h[i].at < createdAt + p.lifetime && QuietEnd(p.quietHours, h[i].at).None?
  {
    if h != [] {
      var n := |h| - 1;
      TotalsHold(p, createdAt, h[..n]);
      forall i | 0 <= i < n && h[i].Send?
        ensures LastOptOut(h[..i]).None? && StandingAutoReply(h[..i]).None? &&
                h[i].at < createdAt + p.lifetime && QuietEnd(p.quietHours, h[i].at).None?
      {
        assert h[..n][..i] == h[..i] && h[..n][i] == h[i];
      }
    }
  }

  /** Sends strictly later than the last human reply stay in the follow-up limit. */
  lemma {:induction false} FollowUpLimitHolds(p: Policy, createdAt: int, h: seq<Contact>)
    requires Admitted(p, createdAt, h)
    ensures CountAfter(Sends(h), LastReply(h)) <= p.maxFollowUps
  {
    if h != [] {
      var before, last := h[..|h| - 1], h[|h| - 1];
      FollowUpLimitHolds(p, createdAt, before);
      if last.Send? {
        CountAfterAppend(Sends(before), last.at, LastReply(before));
      } else if last.Reply? {
        TimesAreOrdered(p, createdAt, h);
        CountAfterMonotone(Sends(before), LastReply(before), LastReply(h));
      }
    }
  }

  /** Nothing recorded is later than the last contact. */
  lemma {:induction false} TimesAreOrdered(p: Policy, createdAt: int, h: seq<Contact>)
    requires Admitted(p, createdAt, h) && h != []
    ensures forall t :: t in Sends(h) ==> t <= h[|h| - 1].at
    ensures LastReply(h).Some? ==> LastReply(h).value <= h[|h| - 1].at
    ensures LastReply(h[..|h| - 1]).Some? ==> LastReply(h[..|h| - 1]).value <= h[|h| - 1].at
  {
    hide Allowed, FactsOf;
    if |h| >= 2 { TimesAreOrdered(p, createdAt, h[..|h| - 1]); }
  }

  ghost predicate NoReplyBetween(h: seq<Contact>, i: int, j: int)
    requires 0 <= i <= j <= |h|
  {
    forall k :: i < k < j ==> !h[k].Reply?
  }

  lemma {:induction false} SendIsRecorded(h: seq<Contact>, i: nat, j: nat)
    requires i < j <= |h| && h[i].Send? && NoReplyBetween(h, i, j)
    ensures h[i].at in Sends(h[..j])
    ensures LastReply(h[..j]) == LastReply(h[..i])
    decreases j
  {
    assert h[..j][..j - 1] == h[..j - 1];
    if i < j - 1 { SendIsRecorded(h, i, j - 1); }
  }

  /** Two sends with no reply between them are at least the minimum interval apart whenever
      the earlier one is strictly later than the reply before it. */
  lemma {:induction false} SpacingHolds(p: Policy, createdAt: int, h: seq<Contact>, i: nat, j: nat)
    requires Admitted(p, createdAt, h)
    requires i < j < |h| && h[i].Send? && h[j].Send? && NoReplyBetween(h, i, j)
    requires After(h[i].at, LastReply(h[..i]))
    ensures h[i].at + p.minimumInterval <= h[j].at
  {
    var n := |h| - 1;
    if j < n {
      assert h[..n][..i] == h[..i];
      SpacingHolds(p, createdAt, h[..n], i, j);
    } else {
      assert h[..n] == h[..j];
      SendIsRecorded(h, i, j);
    }
  }

  /** The spacing rule holds for the latest send exactly when that send is strictly later
      than the last reply: a send at the very instant of the reply is not counted. */
  lemma SpacingEnforcedExactly(p: Policy, f: Facts, latest: int)
    requires p.minimumInterval > 0 && f.prior.None?
    requires exists i :: 0 <= i < |f.outbound| && f.outbound[i] == latest
    requires forall i :: 0 <= i < |f.outbound| ==> f.outbound[i] <= latest
    ensures (forall now :: latest <= now < latest + p.minimumInterval ==> IntervalHit(p, f, now))
            <==> After(latest, f.lastReply)
  {
    if !After(latest, f.lastReply) {
      assert !IntervalHit(p, f, latest);
    }
  }

  lemma AdmittedExtends(p: Policy, createdAt: int, h: seq<Contact>, c: Contact)
    requires Admitted(p, createdAt, h)
    requires h != [] ==> h[|h| - 1].at <= c.at
    requires c.Send? ==> Allowed(p, FactsOf(createdAt, h), c.at)
    ensures Admitted(p, createdAt, h + [c])
  {
    assert (h + [c])[..|h|] == h;
  }

  // ------------------------------------------------- the instant of a reply

  /** The sends listed after the last reply. */
  function SinceReply(h: seq<Contact>): nat {
    if h == [] || h[|h| - 1].Reply? then 0
    else SinceReply(h[..|h| - 1]) + if h[|h| - 1].Send? then 1 else 0
  }

  /** Those among them that carry the reply's own instant. */
  function AtReply(h: seq<Contact>): nat {
    if h == [] || h[|h| - 1].Reply? then 0
    else AtReply(h[..|h| - 1]) +
         if h[|h| - 1].Send? && LastReply(h[..|h| - 1]) == Some(h[|h| - 1].at) then 1 else 0
  }

  /** The order-based follow-up count is the enforced one and the sends at the reply's instant. */
  ghost predicate Splits(h: seq<Contact>) {
    SinceReply(h) == CountAfter(Sends(h), LastReply(h)) + AtReply(h)
  }

  lemma OneMore(h: seq<Contact>, c: Contact)
    ensures Sends(h + [c]) == if c.Send? then Sends(h) + [c.at] else Sends(h)
    ensures LastReply(h + [c]) == if c.Reply? then Some(c.at) else LastReply(h)
    ensures SinceReply(h + [c]) == if c.Reply? then 0 else SinceReply(h) + if c.Send? then 1 else 0
    ensures AtReply(h + [c]) ==
            if c.Reply? then 0 else AtReply(h) + if c.Send? && LastReply(h) == Some(c.at) then 1 else 0
  {
    assert (h + [c])[..|h|] == h;
  }

  lemma SplitsExtend(h: seq<Contact>, c: Contact)
    requires Splits(h)
    requires LastReply(h).Some? ==> LastReply(h).value <= c.at
    requires forall t :: t in Sends(h) ==> t <= c.at
    ensures Splits(h + [c])
  {
    hide Sends, LastReply, SinceReply, AtReply, CountAfter;
    OneMore(h, c);
    if c.Reply? {
      assert forall i :: 0 <= i < |Sends(h)| ==> Sends(h)[i] in Sends(h);
      NoneAfter(Sends(h), c.at);
    } else if c.Send? {
      CountAfterAppend(Sends(h), c.at, LastReply(h));
    }
  }

  lemma {:induction false} FollowUpsSplit(p: Policy, createdAt: int, h: seq<Contact>)
    requires Admitted(p, createdAt, h)
    ensures Splits(h)
  {
    hide Allowed;
    if h != [] {
      var before, last := h[..|h| - 1], h[|h| - 1];
      FollowUpsSplit(p, createdAt, before);
      hide Splits;
      if before != [] { TimesAreOrdered(p, createdAt, before); }
      SplitsExtend(before, last);
      assert before + [last] == h;
    }
  }

  /** Send i is among those after the last reply and carries the reply's instant. */
  ghost predicate SharesReplyInstant(h: seq<Contact>, i: nat) {
    && i < |h| && h[i].Send? && NoReplyBetween(h, i, |h|)
    && LastReply(h[..i]) == Some(h[i].at)
  }

  lemma {:induction false} AtReplyCountsShared(h: seq<Contact>)
    ensures AtReply(h) == 0 <==> forall i: nat :: !SharesReplyInstant(h, i)
  {
    if h != [] {
      var n := |h| - 1;
      AtReplyCountsShared(h[..n]);
      forall i: nat | i < n ensures SharesReplyInstant(h, i) <==> !h[n].Reply? && SharesReplyInstant(h[..n], i) {
        assert h[..n][..i] == h[..i];
        assert !h[n].Reply? && NoReplyBetween(h[..n], i, n) ==> NoReplyBetween(h, i, n + 1);
        assert NoReplyBetween(h, i, n + 1) ==> !h[n].Reply? && forall k :: i < k < n ==> !h[..n][k].Reply?;
      }
      assert SharesReplyInstant(h, n) <==> h[n].Send? && LastReply(h[..n]) == Some(h[n].at);
    }
  }

  /** The follow-up limit is enforced on the sends listed after the last reply exactly when none
      of them carries the instant of that reply; then their number is within the limit. */
  lemma FollowUpsEnforcedExactly(p: Policy, createdAt: int, h: seq<Contact>)
    requires Admitted(p, createdAt, h)
    ensures SinceReply(h) == CountAfter(Sends(h), LastReply(h)) <==> forall i: nat :: !SharesReplyInstant(h, i)
    ensures SinceReply(h) <= p.maxFollowUps + AtReply(h)
    ensures (forall i: nat :: !SharesReplyInstant(h, i)) ==> SinceReply(h) <= p.maxFollowUps
  {
    hide Admitted, SharesReplyInstant;
    FollowUpsSplit(p, createdAt, h);
    AtReplyCountsShared(h);
    FollowUpLimitHolds(p, createdAt, h);
  }

  /** A reply and n sends at its very instant. */
  function Burst(at: int, n: nat): seq<Contact> {
    if n == 0 then [Reply(at)] else Burst(at, n - 1) + [Send(at)]
  }

  lemma {:induction false} BurstFacts(createdAt: int, at: int, n: nat)
    ensures FactsOf(createdAt, Burst(at, n)) ==
            Facts(createdAt, seq(n, i => at), None, Some(at), None, None, true)
    ensures SinceReply(Burst(at, n)) == n && Burst(at, n)[|Burst(at, n)| - 1].at == at
  {
    if n == 0 {
      FactsExtend(createdAt, [], Reply(at));
      assert [] + [Reply(at)] == [Reply(at)] && seq(0, i => at) == [];
    } else {
      BurstFacts(createdAt, at, n - 1);
      FactsExtend(createdAt, Burst(at, n - 1), Send(at));
      assert (Burst(at, n - 1) + [Send(at)])[..|Burst(at, n - 1)|] == Burst(at, n - 1);
      assert seq(n, i => at) == seq(n - 1, i => at) + [at];
    }
  }

  lemma {:induction false} AllAfter(times: seq<int>, bound: int)
    requires forall i :: 0 <= i < |times| ==> times[i] > bound
    ensures CountAfter(times, Some(bound)) == |times|
  {
    if times != [] { AllAfter(times[..|times| - 1], bound); }
  }

  /** Neither lifetime nor quiet hours forbid a message. */
  predicate OpenAt(p: Policy, createdAt: int, at: int) {
    at < createdAt + p.lifetime && QuietEnd(p.quietHours, at).None?
  }

  /** After n sends at the instant of a reply one more is allowed whatever the interval, as
      long as the follow-up limit is not zero and the total and window limits have room. */
  lemma NextInBurst(p: Policy, createdAt: int, at: int, n: nat)
    ensures Allowed(p, Facts(createdAt, seq(n, i => at), None, Some(at), None, None, true), at) <==>
            OpenAt(p, createdAt, at) && n < p.maxPerProcess && p.maxFollowUps > 0 &&
            (if p.window > 0 then n else 0) < p.maxPerWindow
  {
    hide QuietEnd;
    var times := seq(n, i => at);
    NoneAfter(times, at);
    if p.window > 0 { AllAfter(times, at - p.window); } else { NoneAfter(times, at - p.window); }
  }

  /** The order-based reading of follow-ups and spacing fails for every policy: n sends at the
      instant of a reply are admitted exactly when the total and window limits have room for
      them, however small the follow-up limit and however long the interval. */
  lemma {:induction false} SameInstantSendsEscape(p: Policy, createdAt: int, at: int, n: nat)
    ensures SinceReply(Burst(at, n)) == n
    ensures Admitted(p, createdAt, Burst(at, n)) <==>
            n == 0 || (OpenAt(p, createdAt, at) && p.maxFollowUps > 0 && n <= p.maxPerProcess &&
                       (if p.window > 0 then n else 1) <= p.maxPerWindow)
  {
    hide Allowed, OpenAt;
    BurstFacts(createdAt, at, n);
    if n == 0 {
      assert [Reply(at)][..0] == [];
      assert Admitted(p, createdAt, []);
    } else {
      SameInstantSendsEscape(p, createdAt, at, n - 1);
      BurstFacts(createdAt, at, n - 1);
      NextInBurst(p, createdAt, at, n - 1);
      assert Burst(at, n)[..|Burst(at, n)| - 1] == Burst(at, n - 1);
    }
  }
}
