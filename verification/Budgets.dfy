/** Token pricing, the append-only usage ledger and the spend fence. */
module Budgets {
  import opened Contracts

  const MILLION := 1_000_000

  datatype Usage = Usage(inputTokens: nat, outputTokens: nat) {
    function Total(): nat { inputTokens + outputTokens }

    function Plus(other: Usage): Usage {
      Usage(inputTokens + other.inputTokens, outputTokens + other.outputTokens)
    }
  }

  datatype PriceEntry = PriceEntry(inputMicros: nat, outputMicros: nat)

  /** Cost in micro-USD scaled by a million, before any rounding. */
  function ExactScaled(u: Usage, p: PriceEntry): nat {
    u.inputTokens * p.inputMicros + u.outputTokens * p.outputMicros
  }

  /** Each direction is floored on its own, so the estimate is never above the exact
      cost and always less than two micro-USD short of it. */
  function EstimateCostMicros(u: Usage, p: PriceEntry): (cost: nat)
    ensures cost * MILLION <= ExactScaled(u, p) < (cost + 2) * MILLION
  {
    u.inputTokens * p.inputMicros / MILLION + u.outputTokens * p.outputMicros / MILLION
  }

  /** Input and output are priced apart, and each is rounded down to a whole micro-USD. */
  lemma DirectionsAreFloored(u: Usage, p: PriceEntry)
    ensures var input := EstimateCostMicros(Usage(u.inputTokens, 0), p);
            var output := EstimateCostMicros(Usage(0, u.outputTokens), p);
            && EstimateCostMicros(u, p) == input + output
            && input * MILLION <= u.inputTokens * p.inputMicros < (input + 1) * MILLION
            && output * MILLION <= u.outputTokens * p.outputMicros < (output + 1) * MILLION
  {
    assert 0 * p.inputMicros == 0 && 0 * p.outputMicros == 0;
  }

  // --------------------------------------------------------------- ledger

  /** The unique usage identity of one model call of a tenant. */
  datatype CallId = CallId(process: Id, turn: Id, execution: Id, attempt: nat)

  datatype Entry = Entry(call: CallId, model: string, usage: Usage, cost: nat, tableVersion: nat)

  datatype LedgerError = UsageRejected | LineageChanged

  function SpentBy(entries: seq<Entry>, process: Id): Usage {
    if entries == [] then Usage(0, 0)
    else
      var rest := SpentBy(entries[..|entries| - 1], process);
      var last := entries[|entries| - 1];
      if last.call.process == process then rest.Plus(last.usage) else rest
  }

  function CostBy(entries: seq<Entry>, process: Id): nat {
    if entries == [] then 0
    else
      var rest := CostBy(entries[..|entries| - 1], process);
      var last := entries[|entries| - 1];
      if last.call.process == process then rest + last.cost else rest
  }

  predicate UniqueCalls(entries: seq<Entry>) {
    forall i, j :: 0 <= i < j < |entries| ==> entries[i].call != entries[j].call
  }

  class Ledger {
    var entries: seq<Entry>

    ghost predicate Valid() reads this { UniqueCalls(entries) }

    constructor ()
      ensures Valid() && entries == []
    {
      entries := [];
    }

    /** A new identity appends exactly one row. A known identity appends nothing:
        it succeeds only when the replay carries the recorded content. */
    method Record(e: Entry) returns (r: Result<Entry, LedgerError>)
      requires Valid()
      modifies this
      ensures Valid()
      ensures r.Ok? ==> r.value == e
      ensures forall x, y :: x in entries && y in entries && x.call == y.call ==> x == y
      ensures r.Ok? && e !in old(entries) ==> entries == old(entries) + [e]
      ensures r.Ok? && e in old(entries) ==> entries == old(entries)
      ensures r.Err? ==> entries == old(entries)
      ensures r == Err(UsageRejected) <==> e.model == "" || e.call.attempt < 1 || e.tableVersion < 1
      ensures r == Err(LineageChanged) <==>
              e.model != "" && e.call.attempt >= 1 && e.tableVersion >= 1 &&
              exists old_e :: old_e in old(entries) && old_e.call == e.call && old_e != e
    {
      if e.model == "" || e.call.attempt < 1 || e.tableVersion < 1 {
        return Err(UsageRejected);
      }
      for i := 0 to |entries|
        invariant entries == old(entries)
        invariant forall j :: 0 <= j < i ==> entries[j].call != e.call
      {
        if entries[i].call == e.call {
          assert entries[i] in old(entries);
          return if entries[i] == e then Ok(e) else Err(LineageChanged);
        }
      }
      entries := entries + [e];
      r := Ok(e);
    }

    method Spent(process: Id) returns (usage: Usage, cost: nat)
      ensures usage == SpentBy(entries, process) && cost == CostBy(entries, process)
    {
      usage, cost := Usage(0, 0), 0;
      for i := 0 to |entries|
        invariant usage == SpentBy(entries[..i], process) && cost == CostBy(entries[..i], process)
      {
        assert entries[..i + 1][..i] == entries[..i];
        if entries[i].call.process == process {
          usage, cost := usage.Plus(entries[i].usage), cost + entries[i].cost;
        }
      }
      assert entries[..|entries|] == entries;
    }
  }

  // ---------------------------------------------------------------- fence

  datatype Budget = Budget(maxInput: nat, maxOutput: nat, maxTotal: nat, maxCost: nat)

  datatype BudgetBlock = InputTokenLimit | OutputTokenLimit | TotalTokenLimit | CostLimit

  /** The blocks are exactly the caps already reached. */
  method EvaluateModelBudget(b: Budget, spent: Usage, cost: nat) returns (blocks: seq<BudgetBlock>)
    ensures InputTokenLimit in blocks <==> spent.inputTokens >= b.maxInput
    ensures OutputTokenLimit in blocks <==> spent.outputTokens >= b.maxOutput
    ensures TotalTokenLimit in blocks <==> spent.inputTokens + spent.outputTokens >= b.maxTotal
    ensures CostLimit in blocks <==> cost >= b.maxCost
    ensures blocks == [] <==> UnderBudget(b, spent, cost)
  {
    blocks := [];
    if spent.inputTokens >= b.maxInput { blocks := blocks + [InputTokenLimit]; }
    if spent.outputTokens >= b.maxOutput { blocks := blocks + [OutputTokenLimit]; }
    if spent.Total() >= b.maxTotal { blocks := blocks + [TotalTokenLimit]; }
    if cost >= b.maxCost { blocks := blocks + [CostLimit]; }
  }

  predicate UnderBudget(b: Budget, spent: Usage, cost: nat) {
    spent.inputTokens < b.maxInput && spent.outputTokens < b.maxOutput &&
    spent.Total() < b.maxTotal && cost < b.maxCost
  }

  /** A ledger grown by evaluate-then-record: every call of `process` was made while its
      recorded spend was under budget. Calls of other processes are unconstrained. */
  ghost predicate Fenced(entries: seq<Entry>, b: Budget, process: Id) {
    forall i :: 0 <= i < |entries| && entries[i].call.process == process ==>
      UnderBudget(b, SpentBy(entries[..i], process), CostBy(entries[..i], process))
  }

  /** Evaluate-then-record keeps a ledger fenced: the next row of the process may be
      appended once its spend so far is under budget. */
  lemma FencedExtends(entries: seq<Entry>, e: Entry, b: Budget, process: Id)
    requires Fenced(entries, b, process)
    ensures Fenced(entries + [e], b, process) <==>
            (e.call.process == process ==>
              UnderBudget(b, SpentBy(entries, process), CostBy(entries, process)))
  {
    var grown := entries + [e];
    assert grown[..|entries|] == entries && grown[|entries|] == e;
    forall i | 0 <= i < |entries| ensures grown[..i] == entries[..i] && grown[i] == entries[i] {}
  }

  /** The position of the latest call of a process, if it made any. */
  ghost function LatestCall(entries: seq<Entry>, process: Id): (i: Option<nat>)
    ensures i.Some? ==> i.value < |entries| && entries[i.value].call.process == process
    ensures i.Some? ==> forall j :: i.value < j < |entries| ==> entries[j].call.process != process
    ensures i.None? ==> forall e :: e in entries ==> e.call.process != process
  {
    if entries == [] then None
    else if entries[|entries| - 1].call.process == process then Some(|entries| - 1)
    else LatestCall(entries[..|entries| - 1], process)
  }

  lemma FencedPrefix(entries: seq<Entry>, b: Budget, process: Id)
    requires Fenced(entries, b, process) && entries != []
    ensures Fenced(entries[..|entries| - 1], b, process)
    ensures var n := |entries| - 1;
            entries[n].call.process == process ==>
              UnderBudget(b, SpentBy(entries[..n], process), CostBy(entries[..n], process))
  {
    hide UnderBudget;
    var n := |entries| - 1;
    forall i | 0 <= i < n ensures entries[..n][..i] == entries[..i] {}
  }

  lemma CapsAreAhead(b: Budget, spent: Usage, cost: nat)
    requires UnderBudget(b, spent, cost)
    ensures spent.inputTokens <= b.maxInput - 1 && spent.outputTokens <= b.maxOutput - 1
    ensures spent.Total() <= b.maxTotal - 1 && cost <= b.maxCost - 1
  {}

  /** A fenced process overshoots each cap by at most its latest call. */
  lemma {:induction false} OvershootIsOneCall(entries: seq<Entry>, b: Budget, process: Id)
    requires Fenced(entries, b, process)
    ensures var u, c := SpentBy(entries, process), CostBy(entries, process);
            match LatestCall(entries, process)
            case None => u == Usage(0, 0) && c == 0
            case Some(i) =>
              u.inputTokens <= b.maxInput - 1 + entries[i].usage.inputTokens &&
              u.outputTokens <= b.maxOutput - 1 + entries[i].usage.outputTokens &&
              u.Total() <= b.maxTotal - 1 + entries[i].usage.Total() &&
              c <= b.maxCost - 1 + entries[i].cost
  {
    hide Fenced, UnderBudget;
    if entries != [] {
      var n := |entries| - 1;
      FencedPrefix(entries, b, process);
      if entries[n].call.process != process {
        OvershootIsOneCall(entries[..n], b, process);
      } else {
        CapsAreAhead(b, SpentBy(entries[..n], process), CostBy(entries[..n], process));
      }
    }
  }

  // ------------------------------------------------------ cumulative error

  /** The exact scaled cost of the calls of one process. */
  ghost function ExactBy(entries: seq<Entry>, prices: map<string, PriceEntry>, process: Id): nat {
    if entries == [] then 0
    else
      var rest := ExactBy(entries[..|entries| - 1], prices, process);
      var last := entries[|entries| - 1];
      if last.call.process == process && last.model in prices
      then rest + ExactScaled(last.usage, prices[last.model]) else rest
  }

  ghost function CallsBy(entries: seq<Entry>, process: Id): nat {
    if entries == [] then 0
    else CallsBy(entries[..|entries| - 1], process) +
         if entries[|entries| - 1].call.process == process then 1 else 0
  }

  ghost predicate Priced(entries: seq<Entry>, prices: map<string, PriceEntry>) {
    forall e :: e in entries ==>
      e.model in prices && e.cost == EstimateCostMicros(e.usage, prices[e.model])
  }

  /** Over n priced calls the recorded total is at most the exact cost and less than
      2n micro-USD below it (equal when there are no calls). */
  lemma {:induction false} RecordedCostBounds(entries: seq<Entry>, prices: map<string, PriceEntry>, process: Id)
    requires Priced(entries, prices)
    ensures var n := CallsBy(entries, process);
            var recorded := CostBy(entries, process);
            var exact := ExactBy(entries, prices, process);
            recorded * MILLION <= exact &&
            (if n == 0 then exact == recorded == 0 else exact < (recorded + 2 * n) * MILLION)
  {
    if entries != [] {
      var last := entries[|entries| - 1];
      var prefix := entries[..|entries| - 1];
      assert forall e :: e in prefix ==> e in entries;
      assert last in entries;
      RecordedCostBounds(prefix, prices, process);
    }
  }
}
