/** What the scheduler reads back after an attempt: the provider ledger the capped client kept, or else
    the agent's own trace; and why a capped attempt is what the cohort budget assumes it to be. */
module UsageEvidence {
  import opened Contracts
  import opened TokenCap
  import L = CohortLedger
  import B = CohortBudget
  import R = CohortRunner

  // ------------------------------------------------------ the provider ledger

  /** The sums the client keeps beside the calls of its ledger file. */
  datatype ProviderUsage = ProviderUsage(prompt: int, completion: int, unclassified: int, total: int)

  function LedgerSums(ledger: seq<LedgerCall>): ProviderUsage
  {
    if ledger == [] then ProviderUsage(0, 0, 0, 0)
    else
      var rest, last := LedgerSums(ledger[..|ledger| - 1]), ledger[|ledger| - 1];
      ProviderUsage(rest.prompt + last.prompt, rest.completion + last.completion,
                    rest.unclassified + last.unclassified, rest.total + last.total)
  }

  /** A recorded call whose classified tokens do not exceed its total. */
  predicate Classified(entry: LedgerCall)
  {
    entry.prompt + entry.completion <= entry.total
  }

  /** Every ledger entry was written by the client. */
  predicate Written(entry: LedgerCall)
  {
    entry.unclassified == Max(entry.total - entry.prompt - entry.completion, 0)
  }

  /** The ledger's categories never add up to less than its total, and to exactly the total if and only if
      no call reports more classified tokens than it reports in total. */
  lemma {:induction false} LedgerCategoriesCoverTotal(ledger: seq<LedgerCall>)
    requires forall e | e in ledger :: Written(e)
    ensures var s := LedgerSums(ledger);
      && s.prompt >= 0 && s.completion >= 0 && s.unclassified >= 0
      && s.prompt + s.completion + s.unclassified >= s.total == LedgerTotal(ledger)
      && (s.prompt + s.completion + s.unclassified == s.total <==> forall e | e in ledger :: Classified(e))
  {
    if ledger != [] {
      var rest, last := ledger[..|ledger| - 1], ledger[|ledger| - 1];
      assert ledger == rest + [last];
      assert Written(last);
      LedgerCategoriesCoverTotal(rest);
    }
  }

  lemma {:induction false} LedgerIsWritten(cap: Option<int>, states: seq<Client>, calls: seq<Call>, n: nat)
    requires IsHistory(cap, states, calls) && n < |states|
    ensures forall e | e in states[n].ledger :: Written(e)
  {
    if n > 0 {
      LedgerIsWritten(cap, states, calls, n - 1);
      assert states[n - 1 + 1] == After(states[n - 1], calls[n - 1]);
      AfterAccounts(states[n - 1], calls[n - 1]);
      hide After, Received;
    }
  }

  // ----------------------------------------------------------------- the trace

  /** Counts that are not integers are skipped. */
  datatype TraceTurn = TraceTurn(prompt: Option<int>, completion: Option<int>)

  datatype Trace = Trace(turns: seq<TraceTurn>, reported: Option<int>)

  function PromptSum(turns: seq<TraceTurn>): int
  {
    if turns == [] then 0 else PromptSum(turns[..|turns| - 1]) + turns[|turns| - 1].prompt.GetOr(0)
  }

  function CompletionSum(turns: seq<TraceTurn>): int
  {
    if turns == [] then 0 else CompletionSum(turns[..|turns| - 1]) + turns[|turns| - 1].completion.GetOr(0)
  }

  /** The evidence of an attempt; None for a file that is missing, unreadable or empty. */
  function TraceUsage(trace: Option<Trace>, provider: Option<ProviderUsage>): L.Usage
  {
    if provider.Some? then
      var p := provider.value;
      L.Usage(trace.Some?, true, p.prompt, p.completion, p.unclassified, p.total)
    else
      var turns := if trace.Some? then trace.value.turns else [];
      var prompt, completion := PromptSum(turns), CompletionSum(turns);
      var total := Max(prompt + completion, if trace.Some? then trace.value.reported.GetOr(0) else 0);
      L.Usage(trace.Some?, false, Max(prompt, 0), Max(completion, 0), Max(total - prompt - completion, 0),
              Max(total, 0))
  }

  ghost function SumPresent(counts: seq<Option<int>>): int
  {
    if counts == [] then 0
    else SumPresent(counts[..|counts| - 1])
         + (if counts[|counts| - 1].Some? then counts[|counts| - 1].value else 0)
  }

  ghost function Prompts(turns: seq<TraceTurn>): seq<Option<int>>
  {
    seq(|turns|, i requires 0 <= i < |turns| => turns[i].prompt)
  }

  ghost function Completions(turns: seq<TraceTurn>): seq<Option<int>>
  {
    seq(|turns|, i requires 0 <= i < |turns| => turns[i].completion)
  }

  lemma {:induction false} TurnSums(turns: seq<TraceTurn>)
    ensures PromptSum(turns) == SumPresent(Prompts(turns)) && CompletionSum(turns) == SumPresent(Completions(turns))
  {
    if turns != [] {
      var rest := turns[..|turns| - 1];
      TurnSums(rest);
      assert Prompts(turns)[..|turns| - 1] == Prompts(rest);
      assert Completions(turns)[..|turns| - 1] == Completions(rest);
    }
  }

  /** Evidence without a ledger states the prompt and completion counts of the trace's turns, floored at zero;
      its total is the greatest of zero, what the turns add up to and what the trace reports. So it is never
      negative and never below either, and its categories add up to the total whenever neither sum over the
      turns is negative. Without a trace everything is zero. */
  lemma TraceNeverUndercounts(trace: Option<Trace>)
    ensures var turns, r := if trace.Some? then trace.value.turns else [],
                            if trace.Some? then trace.value.reported else None;
      var u, p, c := TraceUsage(trace, None), SumPresent(Prompts(turns)), SumPresent(Completions(turns));
      && u.traceFound == trace.Some? && !u.providerUsageFound
      && u.prompt == (if p > 0 then p else 0) && u.completion == (if c > 0 then c else 0)
      && u.total >= 0 && u.total >= p + c && (r.Some? ==> u.total >= r.value)
      && (u.total == 0 || u.total == p + c || r == Some(u.total))
      && u.unclassified >= 0 && u.prompt + u.completion + u.unclassified >= u.total
      && (p >= 0 && c >= 0 ==> u.prompt + u.completion + u.unclassified == u.total)
  {
    TurnSums(if trace.Some? then trace.value.turns else []);
    hide PromptSum, CompletionSum, SumPresent, Prompts, Completions;
  }

  // --------------------------------------------- the client under the scheduler

  /** The provider reports a total that is not negative and covers what it classifies. */
  ghost predicate Consistent(c: Client, call: Call)
  {
    forall answer | Answer(c, call, answer) ::
      answer.total >= 0 && Stated(answer.prompt) + Stated(answer.completion) <= answer.total
  }

  lemma ConsistentReceived(c: Client, call: Call)
    requires Consistent(c, call) && Answers(c, call)
    ensures var r := Received(c, call).value;
      r.total >= 0 && Reported(r.prompt) + Reported(r.completion) <= r.total
  {
    ReceivedIsAnswer(c, call, Received(c, call).value);
    hide Answer;
  }

  lemma {:induction false} ConsistentLedger(cap: Option<int>, states: seq<Client>, calls: seq<Call>, n: nat)
    requires IsHistory(cap, states, calls) && n < |states|
    requires forall i: nat | i < |calls| :: Consistent(states[i], calls[i])
    ensures forall e | e in states[n].ledger :: Classified(e)
  {
    if n > 0 {
      ConsistentLedger(cap, states, calls, n - 1);
      assert states[n - 1 + 1] == After(states[n - 1], calls[n - 1]);
      AfterAccounts(states[n - 1], calls[n - 1]);
      assert Consistent(states[n - 1], calls[n - 1]);
      if Answers(states[n - 1], calls[n - 1]) {
        ConsistentReceived(states[n - 1], calls[n - 1]);
      }
      hide After, Received, Consistent;
    }
  }

  /** The evidence of an attempt made through the client: it writes its ledger file with the first answered
      call, so without one the trace is what is read. */
  function ReadBack(trace: Option<Trace>, ledger: seq<LedgerCall>): L.Usage
  {
    TraceUsage(trace, if ledger == [] then None else Some(LedgerSums(ledger)))
  }

  /** The trace, if it is there, reports no tokens. */
  predicate Silent(trace: Option<Trace>)
  {
    trace.Some? ==>
      var prompt, completion := PromptSum(trace.value.turns), CompletionSum(trace.value.turns);
      prompt <= 0 && completion <= 0 && trace.value.reported.GetOr(0) <= prompt + completion
  }

  /** A trace whose every count is zero, as those of the stops that the client makes up itself are, is silent. */
  lemma {:induction false} ZeroCountsAreSilent(turns: seq<TraceTurn>, reported: Option<int>)
    requires reported.GetOr(0) == 0
    requires forall t | t in turns :: t.prompt.GetOr(0) == 0 && t.completion.GetOr(0) == 0
    ensures PromptSum(turns) == CompletionSum(turns) == 0 && Silent(Some(Trace(turns, reported)))
  {
    if turns != [] {
      assert turns[|turns| - 1] in turns;
      ZeroCountsAreSilent(turns[..|turns| - 1], reported);
    }
  }

  lemma SilentIffExact(trace: Option<Trace>)
    ensures B.Exact(TraceUsage(trace, None), 0) <==> Silent(trace)
  {
    hide PromptSum, CompletionSum;
  }

  /** An attempt made through the capped client, by a provider that honours its limits and whose prompts
      are foreseen, consumes at most the attempt's token cap; and the evidence read back afterwards states
      what it consumed, fully classified, if and only if some call was answered or the trace is silent. */
  lemma CappedAttemptIsCompliant(c: L.Config, states: seq<Client>, calls: seq<Call>, n: nat, trace: Option<Trace>)
    requires c.Valid() && IsHistory(Some(c.tokensPerTask), states, calls) && n < |states|
    requires forall i: nat | i < |calls| :: Foreseen(states, calls, i) && Consistent(states[i], calls[i])
    ensures 0 <= states[n].consumed <= c.tokensPerTask && states[n].consumed == LedgerTotal(states[n].ledger)
    ensures B.Exact(ReadBack(trace, states[n].ledger), states[n].consumed)
            <==> states[n].ledger != [] || Silent(trace)
  {
    var cap := Some(c.tokensPerTask);
    NoRejectionWhenForeseen(cap, states, calls, n);
    ConsumedMatchesLedger(cap, states, calls, n);
    forall i | 0 <= i < n ensures !ReportsNegative(states[i], calls[i])
    {
      assert Consistent(states[i], calls[i]);
    }
    LedgerIsWritten(cap, states, calls, n);
    ConsistentLedger(cap, states, calls, n);
    LedgerCategoriesCoverTotal(states[n].ledger);
    assert LedgerTotal([]) == 0;
    SilentIffExact(trace);
    hide IsHistory, LedgerSums, LedgerTotal, Foreseen, Silent;
  }

  /** Prompt, completion, unclassified rest and total of what the provider stated, summed over its answers. */
  ghost function StatedSums(answers: seq<Completion>): ProviderUsage
  {
    if answers == [] then ProviderUsage(0, 0, 0, 0)
    else
      var rest, a := StatedSums(answers[..|answers| - 1]), answers[|answers| - 1];
      ProviderUsage(rest.prompt + Stated(a.prompt), rest.completion + Stated(a.completion),
                    rest.unclassified + Unexplained(a), rest.total + Stated(Some(a.total)))
  }

  /** What the stated prompt and completion leave of the total. */
  ghost function Unexplained(a: Completion): int
  {
    var rest := Stated(Some(a.total)) - Stated(a.prompt) - Stated(a.completion);
    if rest > 0 then rest else 0
  }

  /** What so many tokens cost, with the unclassified ones at the higher rate. */
  ghost function Price(r: L.Rates, prompt: int, completion: int, unclassified: int): real
  {
    var highest := if r.input >= r.output then r.input else r.output;
    (prompt as real * r.input + completion as real * r.output + unclassified as real * highest) / 1000000.0
  }

  /** The price of the provider's answers, one by one. */
  ghost function PriceOf(r: L.Rates, answers: seq<Completion>): real
  {
    if answers == [] then 0.0
    else
      var a := answers[|answers| - 1];
      PriceOf(r, answers[..|answers| - 1]) + Price(r, Stated(a.prompt), Stated(a.completion), Unexplained(a))
  }

  lemma {:induction false} SumsOfRecords(ledger: seq<LedgerCall>, answers: seq<Completion>)
    requires |ledger| == |answers| && forall k | 0 <= k < |ledger| :: Records(ledger[k], answers[k])
    ensures LedgerSums(ledger) == StatedSums(answers)
  {
    if ledger != [] {
      SumsOfRecords(ledger[..|ledger| - 1], answers[..|answers| - 1]);
      assert Records(ledger[|ledger| - 1], answers[|answers| - 1]);
    }
  }

  lemma PriceAdds(r: L.Rates, a: int, b: int, c: int, x: int, y: int, z: int)
    ensures Price(r, a + x, b + y, c + z) == Price(r, a, b, c) + Price(r, x, y, z)
  {
    var highest := if r.input >= r.output then r.input else r.output;
    ProductAdds(a, x, r.input);
    ProductAdds(b, y, r.output);
    ProductAdds(c, z, highest);
  }

  lemma ProductAdds(a: int, x: int, p: real)
    ensures (a + x) as real * p == a as real * p + x as real * p
  {
    assert (a + x) as real == a as real + x as real;
  }

  lemma {:induction false} PriceOfSums(r: L.Rates, answers: seq<Completion>)
    ensures var s := StatedSums(answers); PriceOf(r, answers) == Price(r, s.prompt, s.completion, s.unclassified)
  {
    if answers != [] {
      var a, rest := answers[|answers| - 1], StatedSums(answers[..|answers| - 1]);
      PriceOfSums(r, answers[..|answers| - 1]);
      PriceAdds(r, rest.prompt, rest.completion, rest.unclassified, Stated(a.prompt), Stated(a.completion),
                Unexplained(a));
      hide Price, Stated, Unexplained;
    } else {
      NothingCostsNothing(r);
    }
  }

  lemma NothingCostsNothing(r: L.Rates)
    ensures Price(r, 0, 0, 0) == 0.0
  {
  }

  lemma PriceIsUsageCost(c: L.Config, u: L.Usage)
    ensures L.UsageCost(c, u)
         == if c.rates.Some? then Some(Price(c.rates.value, u.prompt, u.completion, u.unclassified)) else None
  {
    if c.rates.Some? {
      var r := c.rates.value;
      var highest := if r.input >= r.output then r.input else r.output;
      var x, y, z := u.prompt as real * r.input, u.completion as real * r.output, u.unclassified as real * highest;
      assert Price(r, u.prompt, u.completion, u.unclassified) == (x + y + z) / 1000000.0;
      assert z == u.unclassified as real * r.Highest();
      assert L.UsageCost(c, u).value == (x + y + z) / 1000000.0;
    }
  }

  /** The evidence read back from a ledger file states what the provider stated, category by category, and
      the scheduler charges the price of the provider's answers. */
  lemma EvidenceStatesAnswers(
    cap: Option<int>, states: seq<Client>, calls: seq<Call>, n: nat, trace: Option<Trace>, c: L.Config)
    returns (answers: seq<Completion>)
    requires IsHistory(cap, states, calls) && n <= |calls| && states[n].ledger != []
    ensures AnswersInOrder(states, calls, n, answers)
    ensures var u, s := ReadBack(trace, states[n].ledger), StatedSums(answers);
      && u.providerUsageFound && u.traceFound == trace.Some?
      && u.prompt == s.prompt && u.completion == s.completion && u.unclassified == s.unclassified && u.total == s.total
      && L.UsageCost(c, u) == (if c.rates.Some? then Some(PriceOf(c.rates.value, answers)) else None)
  {
    answers := LedgerRecordsAnswers(cap, states, calls, n);
    SumsOfRecords(states[n].ledger, answers);
    PriceIsUsageCost(c, ReadBack(trace, states[n].ledger));
    if c.rates.Some? {
      PriceOfSums(c.rates.value, answers);
    }
    hide IsHistory, StatedSums, PriceOf, Price, LedgerSums;
  }

  /** What the provider bills for each call of the ledger. */
  function Bills(ledger: seq<LedgerCall>): seq<nat>
  {
    if ledger == [] then [] else Bills(ledger[..|ledger| - 1]) + [ledger[|ledger| - 1].total]
  }

  lemma {:induction false} BillsAreLedgerTotal(ledger: seq<LedgerCall>)
    ensures R.Billed(Bills(ledger)) == LedgerTotal(ledger)
  {
    if ledger != [] {
      var rest := ledger[..|ledger| - 1];
      BillsAreLedgerTotal(rest);
      assert Bills(ledger)[..|Bills(ledger)| - 1] == Bills(rest);
    }
  }

  /** So the session such an attempt amounts to, call by call, is one the scheduler's spending theorem
      accepts under the same condition, however its candidate is judged. */
  lemma CappedSessionIsGood(
    c: L.Config, states: seq<Client>, calls: seq<Call>, n: nat, trace: Option<Trace>, verdict: R.Verdict)
    requires c.Valid() && IsHistory(Some(c.tokensPerTask), states, calls) && n < |states|
    requires forall i: nat | i < |calls| :: Foreseen(states, calls, i) && Consistent(states[i], calls[i])
    ensures var ledger := states[n].ledger;
      R.GoodSession(c, R.Session(Bills(ledger), ReadBack(trace, ledger), verdict)) <==> ledger != [] || Silent(trace)
  {
    CappedAttemptIsCompliant(c, states, calls, n, trace);
    BillsAreLedgerTotal(states[n].ledger);
    hide IsHistory, TraceUsage, Foreseen, Bills, LedgerTotal, LedgerSums, Silent;
  }
}
