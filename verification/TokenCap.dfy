/** The per-attempt token cap around the model client: every provider call is budgeted before it is
    made, charged after, and recorded in a ledger. */
module TokenCap {
  import opened Contracts

  const PROMPT_TOKEN_MARGIN := 4096
  const PROMPT_CALIBRATION_BUFFER := 2048
  const INSPECTION_SOFT_LIMIT := 2
  const INSPECTION_HARD_LIMIT := 4
  const SOFT_LIMIT_TOKENS := 4096

  /** What the provider reports; a missing or malformed prompt or completion count is None. */
  datatype Completion = Completion(prompt: Option<int>, completion: Option<int>, total: int)

  datatype LedgerCall = LedgerCall(prompt: nat, completion: nat, unclassified: nat, total: nat, accepted: bool)

  /** One request: the client's own estimate of the prompt, the tokens asked for, what the candidate
      gate knows at that moment, and the provider as a function of the tokens it is allowed (None when
      it raises). */
  datatype Call = Call(estimate: int, requested: int, inspections: nat, everPassed: bool,
                       provider: int -> Option<Completion>)

  datatype Refusal = InspectionExhausted | InvalidConfiguration | CapExhausted | UsageExceeded | ProviderRaised

  /** A provider response, a synthesized stop that keeps the last accepted candidate, or an exception. */
  datatype Outcome = Answered(completion: Completion) | Stopped | Raised(reason: Refusal)

  /** The cap is None when the configured text is not a number. */
  datatype Client = Client(cap: Option<int>, consumed: int, margin: int, ledger: seq<LedgerCall>,
                           budgetStop: bool, inspectionStops: nat, calibrations: nat)

  function Max(a: int, b: int): int { if a < b then b else a }
  function Min(a: int, b: int): int { if a < b then a else b }

  /** The largest completion that still fits under the cap. */
  function Allowance(cap: int, consumed: int, prompt: int, requested: int): (r: Option<nat>)
    ensures r.None? <==> cap <= 0 || consumed < 0 || prompt < 0 || requested <= 0
    ensures r.Some? ==> r.value <= requested && (r.value > 0 ==> consumed + prompt + r.value <= cap)
    ensures r.Some? && r.value < requested ==> consumed + prompt + r.value + 1 > cap
  {
    if cap <= 0 || consumed < 0 || prompt < 0 || requested <= 0 then None
    else Some(Max(0, Min(requested, cap - consumed - prompt)))
  }

  function Reported(value: Option<int>): nat
  {
    if value.Some? && value.value >= 0 then value.value else 0
  }

  function Entry(completion: Completion, accepted: bool): LedgerCall
  {
    var prompt, produced := Reported(completion.prompt), Reported(completion.completion);
    var total := Reported(Some(completion.total));
    LedgerCall(prompt, produced, Max(total - prompt - produced, 0), total, accepted)
  }

  function Fresh(cap: Option<int>): Client
  {
    Client(cap, 0, PROMPT_TOKEN_MARGIN, [], false, 0, 0)
  }

  function Asked(call: Call): int
  {
    if call.inspections >= INSPECTION_SOFT_LIMIT then Min(call.requested, SOFT_LIMIT_TOKENS) else call.requested
  }

  predicate InspectedOut(call: Call)
  {
    call.inspections >= INSPECTION_HARD_LIMIT && !call.everPassed
  }

  /** The tokens this call may produce, None when the configuration is unusable. */
  function Budget(c: Client, call: Call): Option<nat>
  {
    if c.cap.None? then None else Allowance(c.cap.value, c.consumed, call.estimate + c.margin, Asked(call))
  }

  /** The provider is called only with a positive allowance. */
  predicate CallsProvider(c: Client, call: Call)
  {
    !InspectedOut(call) && Budget(c, call).Some? && Budget(c, call).value > 0
  }

  /** What comes back from the provider, if it is called and answers. */
  function Received(c: Client, call: Call): Option<Completion>
  {
    if CallsProvider(c, call) then call.provider(Budget(c, call).value) else None
  }

  function Underestimate(call: Call, completion: Completion): int
  {
    Reported(completion.prompt) - call.estimate
  }

  predicate Fits(c: Client, total: int)
  {
    c.cap.Some? && c.consumed + total <= c.cap.value
  }

  function Charged(c: Client, call: Call, completion: Completion): Client
  {
    var margin := Max(c.margin, Underestimate(call, completion) + PROMPT_CALIBRATION_BUFFER);
    var accepted := Fits(c, completion.total);
    c.(consumed := c.consumed + completion.total,
       margin := margin,
       calibrations := c.calibrations + (if margin > c.margin then 1 else 0),
       ledger := c.ledger + [Entry(completion, accepted)],
       budgetStop := c.budgetStop || (!accepted && call.everPassed))
  }

  function After(c: Client, call: Call): Client
  {
    var received := Received(c, call);
    if InspectedOut(call) then c.(inspectionStops := c.inspectionStops + 1)
    else if received.Some? then Charged(c, call, received.value)
    else if Budget(c, call) == Some(0) && call.everPassed then c.(budgetStop := true)
    else c
  }

  function OutcomeOf(c: Client, call: Call): Outcome
  {
    var received := Received(c, call);
    if InspectedOut(call) then Raised(InspectionExhausted)
    else if Budget(c, call).None? then Raised(InvalidConfiguration)
    else if Budget(c, call).value == 0 then if call.everPassed then Stopped else Raised(CapExhausted)
    else if received.None? then Raised(ProviderRaised)
    else if Fits(c, received.value.total) then Answered(received.value)
    else if call.everPassed then Stopped
    else Raised(UsageExceeded)
  }

  // -------------------------------------------------- what a request means

  /** The client may ask the provider for this many tokens: the inspection budget is not spent, the
      configuration is usable, and prompt and answer fit under the cap even with the margin. */
  ghost predicate Admits(c: Client, call: Call, tokens: int)
  {
    && (call.inspections < 4 || call.everPassed)
    && c.cap.Some? && c.cap.value > 0 && c.consumed >= 0 && call.estimate + c.margin >= 0
    && 0 < tokens <= call.requested && (call.inspections >= 2 ==> tokens <= 4096)
    && c.consumed + call.estimate + c.margin + tokens <= c.cap.value
  }

  /** ... and not for one more: this is what it asks for. */
  ghost predicate AsksFor(c: Client, call: Call, tokens: int)
  {
    Admits(c, call, tokens) && !Admits(c, call, tokens + 1)
  }

  /** The provider is asked and answers this. */
  ghost predicate Answer(c: Client, call: Call, answer: Completion)
  {
    exists tokens :: AsksFor(c, call, tokens) && call.provider(tokens) == Some(answer)
  }

  ghost predicate GetsAnswer(c: Client, call: Call)
  {
    exists answer :: Answer(c, call, answer)
  }

  /** A reported count, where a missing or negative one reads as none. */
  ghost function Stated(value: Option<int>): int
  {
    match value
    case Some(n) => if n > 0 then n else 0
    case None => 0
  }

  lemma AsksForBudget(c: Client, call: Call, tokens: int)
    ensures AsksFor(c, call, tokens) <==> CallsProvider(c, call) && Budget(c, call) == Some(tokens)
  {
  }

  /** What comes back is the provider's answer to the most that the client may ask for. */
  lemma ReceivedIsAnswer(c: Client, call: Call, answer: Completion)
    ensures Received(c, call) == Some(answer) <==> Answer(c, call, answer)
  {
    if CallsProvider(c, call) {
      AsksForBudget(c, call, Budget(c, call).value);
    }
    if Answer(c, call, answer) {
      var tokens :| AsksFor(c, call, tokens) && call.provider(tokens) == Some(answer);
      AsksForBudget(c, call, tokens);
    }
    hide CallsProvider, Budget, AsksFor;
  }

  /** An answer is returned exactly when the cap still holds with it, and otherwise refused or, when a
      candidate was accepted before, replaced by a stop; the provider is not asked exactly when nothing can
      be admitted, for the reason stated. */
  lemma OutcomeMeaning(c: Client, call: Call)
    ensures var outcome := OutcomeOf(c, call);
      var spent := call.inspections >= 4 && !call.everPassed;
      var asked := if call.inspections >= 2 && call.requested > 4096 then 4096 else call.requested;
      var usable := c.cap.Some? && c.cap.value > 0 && c.consumed >= 0 && call.estimate + c.margin >= 0 && asked > 0;
      && (outcome == Raised(InspectionExhausted) <==> spent)
      && (outcome == Raised(InvalidConfiguration) <==> !spent && !usable)
      && (outcome == Raised(CapExhausted) <==> !spent && usable && !Admits(c, call, 1) && !call.everPassed)
      && (outcome == Raised(ProviderRaised) <==> Admits(c, call, 1) && forall answer :: !Answer(c, call, answer))
      && (forall answer :: outcome == Answered(answer) <==>
            Answer(c, call, answer) && c.consumed + answer.total <= c.cap.value)
      && (outcome == Raised(UsageExceeded) <==>
            !call.everPassed && exists answer :: Answer(c, call, answer) && c.consumed + answer.total > c.cap.value)
  {
    forall answer ensures Received(c, call) == Some(answer) <==> Answer(c, call, answer)
    {
      ReceivedIsAnswer(c, call, answer);
    }
    AdmitsOne(c, call);
    hide Answer;
    if Received(c, call).Some? {
      assert Answer(c, call, Received(c, call).value);
    }
  }

  lemma AdmitsOne(c: Client, call: Call)
    ensures Admits(c, call, 1) <==> CallsProvider(c, call)
    ensures Received(c, call).Some? ==> CallsProvider(c, call)
  {
  }

  // ------------------------------------------------------------- histories

  ghost predicate IsHistory(cap: Option<int>, states: seq<Client>, calls: seq<Call>)
  {
    && |states| == |calls| + 1 && states[0] == Fresh(cap)
    && forall i | 0 <= i < |calls| :: states[i + 1] == After(states[i], calls[i])
  }

  /** The model client as one attempt uses it. */
  class CappedClient {
    const cap: Option<int>
    var consumed: int
    var margin: int
    var ledger: seq<LedgerCall>
    var budgetStop: bool
    var inspectionStops: nat
    var calibrations: nat
    ghost var states: seq<Client>
    ghost var calls: seq<Call>

    function State(): Client
      reads this
    {
      Client(cap, consumed, margin, ledger, budgetStop, inspectionStops, calibrations)
    }

    /** What the object holds is what its history of calls leads to. */
    ghost predicate Valid()
      reads this
    {
      IsHistory(cap, states, calls) && states[|calls|] == State()
    }

    constructor (cap: Option<int>)
      ensures Valid() && this.cap == cap && calls == [] && State() == Fresh(cap)
    {
      this.cap := cap;
      consumed, margin, ledger := 0, PROMPT_TOKEN_MARGIN, [];
      budgetStop, inspectionStops, calibrations := false, 0, 0;
      states, calls := [Fresh(cap)], [];
    }

    method Complete(call: Call) returns (outcome: Outcome)
      requires Valid()
      modifies this
      ensures Valid() && calls == old(calls) + [call]
      ensures State() == After(old(State()), call)
      ensures outcome == OutcomeOf(old(State()), call)
    {
      ghost var before := State();
      outcome := Request(call);
      states, calls := states + [After(before, call)], calls + [call];
    }

    method Request(call: Call) returns (outcome: Outcome)
      modifies this
      ensures State() == After(old(State()), call)
      ensures outcome == OutcomeOf(old(State()), call)
      ensures states == old(states) && calls == old(calls)
    {
      if call.inspections >= INSPECTION_HARD_LIMIT && !call.everPassed {
        inspectionStops := inspectionStops + 1;
        return Raised(InspectionExhausted);
      }
      var requested := call.requested;
      if call.inspections >= INSPECTION_SOFT_LIMIT {
        requested := Min(requested, SOFT_LIMIT_TOKENS);
      }
      if cap.None? {
        return Raised(InvalidConfiguration);
      }
      var allowance := Allowance(cap.value, consumed, call.estimate + margin, requested);
      if allowance.None? {
        return Raised(InvalidConfiguration);
      }
      if allowance.value <= 0 {
        if call.everPassed {
          budgetStop := true;
          return Stopped;
        }
        return Raised(CapExhausted);
      }
      var completion := call.provider(allowance.value);
      if completion.None? {
        return Raised(ProviderRaised);
      }
      outcome := Charge(call, completion.value);
    }

    method Charge(call: Call, completion: Completion) returns (outcome: Outcome)
      requires cap.Some?
      modifies this
      ensures State() == Charged(old(State()), call, completion)
      ensures states == old(states) && calls == old(calls)
      ensures outcome == if Fits(old(State()), completion.total) then Answered(completion)
                         else if call.everPassed then Stopped
                         else Raised(UsageExceeded)
    {
      var calibrated := Max(margin, Underestimate(call, completion) + PROMPT_CALIBRATION_BUFFER);
      if calibrated > margin {
        margin := calibrated;
        calibrations := calibrations + 1;
      }
      consumed := consumed + completion.total;
      ledger := ledger + [Entry(completion, consumed <= cap.value)];
      if consumed > cap.value {
        if call.everPassed {
          budgetStop := true;
          return Stopped;
        }
        return Raised(UsageExceeded);
      }
      return Answered(completion);
    }
  }

  // ------------------------------------------------------------ properties

  function LedgerTotal(ledger: seq<LedgerCall>): nat
  {
    if ledger == [] then 0 else LedgerTotal(ledger[..|ledger| - 1]) + ledger[|ledger| - 1].total
  }

  lemma LedgerGrows(ledger: seq<LedgerCall>, entry: LedgerCall)
    ensures LedgerTotal(ledger + [entry]) == LedgerTotal(ledger) + entry.total
  {
    assert (ledger + [entry])[..|ledger|] == ledger;
  }

  /** A call that the provider answers with a negative total. */
  ghost predicate ReportsNegative(c: Client, call: Call)
  {
    exists answer :: Answer(c, call, answer) && answer.total < 0
  }

  lemma NegativeReceived(c: Client, call: Call)
    ensures ReportsNegative(c, call) <==> Received(c, call).Some? && Received(c, call).value.total < 0
  {
    forall answer ensures Received(c, call) == Some(answer) <==> Answer(c, call, answer)
    {
      ReceivedIsAnswer(c, call, answer);
    }
    hide Answer, Received;
    if Received(c, call).Some? {
      assert Answer(c, call, Received(c, call).value);
    }
  }

  /** Every call either is answered, charged and recorded, or leaves the accounts alone. */
  lemma AfterAccounts(c: Client, call: Call)
    ensures After(c, call).cap == c.cap
    ensures Received(c, call).None? ==>
              After(c, call).(budgetStop := c.budgetStop, inspectionStops := c.inspectionStops) == c
    ensures Received(c, call).Some? ==> After(c, call) == Charged(c, call, Received(c, call).value)
  {
  }

  lemma LedgerGap(c: Client, call: Call)
    ensures var gap := LedgerTotal(c.ledger) - c.consumed; var c' := After(c, call);
            var gap' := LedgerTotal(c'.ledger) - c'.consumed;
            gap' >= gap && (gap' == gap <==> !ReportsNegative(c, call))
  {
    AfterAccounts(c, call);
    NegativeReceived(c, call);
    hide After, ReportsNegative;
    if Received(c, call).Some? {
      LedgerGrows(c.ledger, Entry(Received(c, call).value, Fits(c, Received(c, call).value.total)));
    }
  }

  /** What was charged equals what the ledger records in total exactly when no provider call ever
      reported a negative total; otherwise the ledger records more. */
  lemma {:induction false} ConsumedMatchesLedger(cap: Option<int>, states: seq<Client>, calls: seq<Call>, n: nat)
    requires IsHistory(cap, states, calls) && n < |states|
    ensures LedgerTotal(states[n].ledger) >= states[n].consumed
    ensures LedgerTotal(states[n].ledger) == states[n].consumed
            <==> forall i | 0 <= i < n :: !ReportsNegative(states[i], calls[i])
  {
    assert LedgerTotal([]) == 0;
    hide After, Received, LedgerTotal, ReportsNegative;
    if n > 0 {
      ConsumedMatchesLedger(cap, states, calls, n - 1);
      LedgerGap(states[n - 1], calls[n - 1]);
      assert states[n - 1 + 1] == After(states[n - 1], calls[n - 1]);
    }
  }

  /** A provider that once answers with a total of minus one: the client has consumed less than nothing, and
      its ledger records zero. */
  lemma NegativeTotalSplitsAccounts() returns (states: seq<Client>, calls: seq<Call>)
    ensures IsHistory(Some(5000), states, calls) && |calls| == 1
    ensures states[1].consumed == -1 && |states[1].ledger| == 1 && LedgerTotal(states[1].ledger) == 0
  {
    var answer := Completion(Some(0), Some(0), -1);
    var call := Call(0, 10, 0, false, (allowance: int) => Some(answer));
    var first := Fresh(Some(5000));
    assert Received(first, call) == Some(answer);
    states, calls := [first, After(first, call)], [call];
    LedgerGrows([], Entry(answer, true));
  }

  /** The provider's answers in the order of the calls. */
  ghost predicate AnswersInOrder(states: seq<Client>, calls: seq<Call>, n: nat, answers: seq<Completion>)
    requires n <= |calls| <= |states|
  {
    if n == 0 then answers == []
    else if GetsAnswer(states[n - 1], calls[n - 1]) then
      answers != [] && Answer(states[n - 1], calls[n - 1], answers[|answers| - 1])
      && AnswersInOrder(states, calls, n - 1, answers[..|answers| - 1])
    else AnswersInOrder(states, calls, n - 1, answers)
  }

  /** The entry carries the answer's own counts, and what they leave of its total. */
  ghost predicate Records(entry: LedgerCall, answer: Completion)
  {
    var rest := Stated(Some(answer.total)) - Stated(answer.prompt) - Stated(answer.completion);
    && entry.prompt == Stated(answer.prompt) && entry.completion == Stated(answer.completion)
    && entry.total == Stated(Some(answer.total)) && entry.unclassified == (if rest > 0 then rest else 0)
  }

  lemma RecordStep(c: Client, call: Call)
    ensures !GetsAnswer(c, call) ==> After(c, call).ledger == c.ledger
    ensures forall answer | Answer(c, call, answer) ::
      var ledger := After(c, call).ledger;
      && |ledger| == |c.ledger| + 1 && ledger[..|c.ledger|] == c.ledger && Records(ledger[|c.ledger|], answer)
      && (ledger[|c.ledger|].accepted <==> c.cap.Some? && After(c, call).consumed <= c.cap.value)
      && After(c, call).consumed == c.consumed + answer.total
  {
    AfterAccounts(c, call);
    forall answer ensures Received(c, call) == Some(answer) <==> Answer(c, call, answer)
    {
      ReceivedIsAnswer(c, call, answer);
    }
    hide After, Answer, Received;
    if Received(c, call).Some? {
      assert Answer(c, call, Received(c, call).value);
    }
  }

  /** In every history the ledger lists the provider's answers, one entry each in order, with their own
      prompt, completion and total. */
  lemma {:induction false} LedgerRecordsAnswers(cap: Option<int>, states: seq<Client>, calls: seq<Call>, n: nat)
    returns (answers: seq<Completion>)
    requires IsHistory(cap, states, calls) && n <= |calls|
    ensures AnswersInOrder(states, calls, n, answers) && |answers| == |states[n].ledger|
    ensures forall k | 0 <= k < |answers| :: Records(states[n].ledger[k], answers[k])
  {
    hide After, Answer, Records;
    answers := [];
    if n > 0 {
      answers := LedgerRecordsAnswers(cap, states, calls, n - 1);
      var c, call := states[n - 1], calls[n - 1];
      assert states[n - 1 + 1] == After(c, call);
      RecordStep(c, call);
      if GetsAnswer(c, call) {
        var answer :| Answer(c, call, answer);
        assert (answers + [answer])[..|answers|] == answers;
        answers := answers + [answer];
      }
    }
  }

  predicate Answers(c: Client, call: Call)
  {
    Received(c, call).Some?
  }

  /** The cap never changes, the margin never falls below its start, and nothing is charged unless the
      provider is called under a positive cap. */
  ghost predicate Sane(cap: Option<int>, c: Client)
  {
    && c.cap == cap && c.margin >= PROMPT_TOKEN_MARGIN
    && (forall k | 0 <= k < |c.ledger| - 1 :: c.ledger[k].accepted)
    && (c.ledger != [] ==> cap.Some? && cap.value > 0)
    && (c.ledger != [] ==> (c.ledger[|c.ledger| - 1].accepted <==> c.consumed <= cap.value))
    && (c.ledger == [] ==> c.consumed == 0)
  }

  /** Over the cap there is no allowance, so no provider call. */
  lemma OverCapNeverCalls(cap: Option<int>, c: Client, call: Call)
    requires Sane(cap, c) && c.ledger != [] && !c.ledger[|c.ledger| - 1].accepted
    ensures !CallsProvider(c, call)
  {
  }

  lemma SaneStep(cap: Option<int>, c: Client, call: Call)
    requires Sane(cap, c)
    ensures Sane(cap, After(c, call))
  {
    AfterAccounts(c, call);
    if Answers(c, call) && c.ledger != [] && !c.ledger[|c.ledger| - 1].accepted {
      OverCapNeverCalls(cap, c, call);
    }
  }

  lemma {:induction false} HistoryIsSane(cap: Option<int>, states: seq<Client>, calls: seq<Call>, n: nat)
    requires IsHistory(cap, states, calls) && n < |states|
    ensures Sane(cap, states[n])
  {
    if n > 0 {
      HistoryIsSane(cap, states, calls, n - 1);
      hide After, Sane;
      SaneStep(cap, states[n - 1], calls[n - 1]);
      assert states[n - 1 + 1] == After(states[n - 1], calls[n - 1]);
    }
  }

  /** At most one call is ever rejected: the last one in the ledger, and the last one the provider
      ever sees. The consumed tokens exceed the cap exactly from then on. */
  lemma {:induction false} OneRejectionEndsIt(cap: Option<int>, states: seq<Client>, calls: seq<Call>, n: nat)
    requires IsHistory(cap, states, calls) && n < |states|
    ensures forall k | 0 <= k < |states[n].ledger| - 1 :: states[n].ledger[k].accepted
    ensures states[n].ledger != [] ==> cap.Some?
    ensures states[n].ledger != [] ==>
              (states[n].ledger[|states[n].ledger| - 1].accepted <==> states[n].consumed <= cap.value)
    ensures n < |calls| && states[n].ledger != [] && states[n].consumed > cap.value ==>
              forall tokens :: !Admits(states[n], calls[n], tokens)
  {
    HistoryIsSane(cap, states, calls, n);
  }

  // ------------------------------------------------------------- the margin

  /** The provider answers and states a prompt this much larger than the estimate. */
  ghost predicate ErredBy(c: Client, call: Call, error: int)
  {
    exists answer :: Answer(c, call, answer) && Stated(answer.prompt) - call.estimate == error
  }

  lemma ErredByUnderestimate(c: Client, call: Call, error: int)
    ensures ErredBy(c, call, error) <==> Answers(c, call) && Underestimate(call, Received(c, call).value) == error
  {
    if ErredBy(c, call, error) {
      var answer :| Answer(c, call, answer) && Stated(answer.prompt) - call.estimate == error;
      ReceivedIsAnswer(c, call, answer);
    }
    if Answers(c, call) {
      ReceivedIsAnswer(c, call, Received(c, call).value);
      hide Answer;
      assert Answer(c, call, Received(c, call).value);
    }
    hide Answer;
  }

  /** The margin is exactly the larger of its initial value and the worst underestimate seen so far
      plus the calibration buffer. */
  lemma {:induction false} MarginIsWorstUnderestimate(cap: Option<int>, states: seq<Client>, calls: seq<Call>, n: nat)
    requires IsHistory(cap, states, calls) && n < |states|
    ensures states[n].margin >= 4096
    ensures forall i, e | 0 <= i < n && ErredBy(states[i], calls[i], e) :: states[n].margin >= e + 2048
    ensures states[n].margin == 4096
            || exists i, e :: 0 <= i < n && ErredBy(states[i], calls[i], e) && states[n].margin == e + 2048
  {
    if n > 0 {
      MarginIsWorstUnderestimate(cap, states, calls, n - 1);
      var c, call := states[n - 1], calls[n - 1];
      assert states[n - 1 + 1] == After(c, call);
      AfterAccounts(c, call);
      MarginStep(c, call);
      hide After, ErredBy;
    }
  }

  lemma MarginStep(c: Client, call: Call)
    ensures After(c, call).margin >= c.margin
    ensures forall e | ErredBy(c, call, e) :: After(c, call).margin == Max(c.margin, e + PROMPT_CALIBRATION_BUFFER)
    ensures After(c, call).margin == c.margin
            || exists e :: ErredBy(c, call, e) && After(c, call).margin == e + PROMPT_CALIBRATION_BUFFER
  {
    forall e ensures ErredBy(c, call, e)
                <==> Answers(c, call) && Underestimate(call, Received(c, call).value) == e
    {
      ErredByUnderestimate(c, call, e);
    }
    hide ErredBy;
    if Answers(c, call) {
      assert ErredBy(c, call, Underestimate(call, Received(c, call).value));
    }
  }

  // ---------------------------------------------- a provider that complies

  /** The provider honours the completion limit it is given and reports a consistent total. */
  ghost predicate Honours(c: Client, call: Call)
  {
    forall tokens, answer | AsksFor(c, call, tokens) && call.provider(tokens) == Some(answer) ::
      Stated(answer.completion) <= tokens && answer.total <= Stated(answer.prompt) + Stated(answer.completion)
  }

  lemma HonoursReceived(c: Client, call: Call)
    requires Honours(c, call) && Answers(c, call)
    ensures var r := Received(c, call).value;
      && Reported(r.completion) <= Budget(c, call).value
      && r.total <= Reported(r.prompt) + Reported(r.completion)
  {
    AsksForBudget(c, call, Budget(c, call).value);
  }

  /** The underestimate of the prompt is at most the margin. */
  predicate WithinMargin(c: Client, call: Call)
  {
    Answers(c, call) ==> Underestimate(call, Received(c, call).value) <= c.margin
  }

  lemma HonestCallIsAccepted(c: Client, call: Call)
    requires Honours(c, call) && WithinMargin(c, call) && Answers(c, call)
    ensures c.cap.Some? && After(c, call).consumed <= c.cap.value
  {
    HonoursReceived(c, call);
  }

  /** A provider is never over the cap if it honours the limit and each underestimate is at most the
      initial margin, or at most an earlier underestimate plus the calibration buffer. */
  ghost predicate Foreseen(states: seq<Client>, calls: seq<Call>, i: nat)
    requires i < |calls| <= |states|
  {
    && Honours(states[i], calls[i])
    && forall e | ErredBy(states[i], calls[i], e) ::
         || e <= 4096
         || exists j, d :: 0 <= j < i && ErredBy(states[j], calls[j], d) && e <= d + 2048
  }

  lemma ForeseenIsWithinMargin(cap: Option<int>, states: seq<Client>, calls: seq<Call>, i: nat)
    requires IsHistory(cap, states, calls) && i < |calls| && Foreseen(states, calls, i)
    ensures WithinMargin(states[i], calls[i])
  {
    MarginIsWorstUnderestimate(cap, states, calls, i);
    if Answers(states[i], calls[i]) {
      ErredByUnderestimate(states[i], calls[i], Underestimate(calls[i], Received(states[i], calls[i]).value));
      hide ErredBy;
      assert ErredBy(states[i], calls[i], Underestimate(calls[i], Received(states[i], calls[i]).value));
    }
  }

  /** With such a provider every ledger entry is accepted and the cap holds at every point. */
  lemma {:induction false} NoRejectionWhenForeseen(cap: Option<int>, states: seq<Client>, calls: seq<Call>, n: nat)
    requires IsHistory(cap, states, calls) && n < |states|
    requires forall i: nat | i < |calls| :: Foreseen(states, calls, i)
    ensures forall k | 0 <= k < |states[n].ledger| :: states[n].ledger[k].accepted
    ensures cap.Some? && cap.value >= 0 ==> states[n].consumed <= cap.value
  {
    if n > 0 {
      var c, call := states[n - 1], calls[n - 1];
      NoRejectionWhenForeseen(cap, states, calls, n - 1);
      ForeseenIsWithinMargin(cap, states, calls, n - 1);
      assert states[n - 1 + 1] == After(c, call);
      HistoryIsSane(cap, states, calls, n);
      HistoryIsSane(cap, states, calls, n - 1);
      hide IsHistory, Foreseen;
      AfterAccounts(c, call);
      if Answers(c, call) {
        HonestCallIsAccepted(c, call);
      }
    }
  }

  // --------------------------------------------------------------- counters

  /** How many of the first n calls satisfy p in the state they meet. */
  ghost function CountWhere(p: (Client, Call) -> bool, states: seq<Client>, calls: seq<Call>, n: nat): nat
    requires n <= |calls| <= |states|
  {
    if n == 0 then 0
    else CountWhere(p, states, calls, n - 1) + (if p(states[n - 1], calls[n - 1]) then 1 else 0)
  }

  /** The call's prompt was underestimated by more than the margin leaves for the buffer. */
  ghost predicate RaisesMargin(c: Client, call: Call)
  {
    exists e :: ErredBy(c, call, e) && e + 2048 > c.margin
  }

  /** The inspection budget is spent and nothing was ever accepted. */
  ghost predicate SpentOnInspection(c: Client, call: Call)
  {
    call.inspections >= 4 && !call.everPassed
  }

  /** The ledger has one entry per answered call, and the two reported counters count what they name. */
  lemma {:induction false} CountersCount(cap: Option<int>, states: seq<Client>, calls: seq<Call>, n: nat)
    requires IsHistory(cap, states, calls) && n <= |calls|
    ensures |states[n].ledger| == CountWhere(GetsAnswer, states, calls, n)
    ensures states[n].calibrations == CountWhere(RaisesMargin, states, calls, n)
    ensures states[n].inspectionStops == CountWhere(SpentOnInspection, states, calls, n)
  {
    if n > 0 {
      CountersCount(cap, states, calls, n - 1);
      assert states[n - 1 + 1] == After(states[n - 1], calls[n - 1]);
      CounterStep(states[n - 1], calls[n - 1]);
      hide After, GetsAnswer, RaisesMargin, SpentOnInspection;
    }
  }

  lemma CounterStep(c: Client, call: Call)
    ensures |After(c, call).ledger| == |c.ledger| + (if GetsAnswer(c, call) then 1 else 0)
    ensures After(c, call).calibrations == c.calibrations + (if RaisesMargin(c, call) then 1 else 0)
    ensures After(c, call).inspectionStops == c.inspectionStops + (if SpentOnInspection(c, call) then 1 else 0)
  {
    AnsweredReceived(c, call);
    RaisesReceived(c, call);
    hide GetsAnswer, RaisesMargin;
  }

  lemma AnsweredReceived(c: Client, call: Call)
    ensures GetsAnswer(c, call) <==> Answers(c, call)
  {
    forall answer ensures Received(c, call) == Some(answer) <==> Answer(c, call, answer)
    {
      ReceivedIsAnswer(c, call, answer);
    }
    hide Answer, Received;
    if Received(c, call).Some? {
      assert Answer(c, call, Received(c, call).value);
    }
  }

  lemma RaisesReceived(c: Client, call: Call)
    ensures RaisesMargin(c, call)
       <==> Answers(c, call) && Underestimate(call, Received(c, call).value) + PROMPT_CALIBRATION_BUFFER > c.margin
  {
    forall e ensures ErredBy(c, call, e)
                <==> Answers(c, call) && Underestimate(call, Received(c, call).value) == e
    {
      ErredByUnderestimate(c, call, e);
    }
    hide ErredBy, Received;
    if Answers(c, call) {
      assert ErredBy(c, call, Underestimate(call, Received(c, call).value));
    }
  }

  /** The stop flag is up exactly when some request was answered by a stop. */
  lemma {:induction false} BudgetStopIffStopped(cap: Option<int>, states: seq<Client>, calls: seq<Call>, n: nat)
    requires IsHistory(cap, states, calls) && n <= |calls|
    ensures states[n].budgetStop <==> exists i :: 0 <= i < n && OutcomeOf(states[i], calls[i]).Stopped?
  {
    if n > 0 {
      BudgetStopIffStopped(cap, states, calls, n - 1);
      assert states[n - 1 + 1] == After(states[n - 1], calls[n - 1]);
      StopStep(states[n - 1], calls[n - 1]);
      hide After, OutcomeOf;
    }
  }

  lemma StopStep(c: Client, call: Call)
    ensures After(c, call).budgetStop <==> c.budgetStop || OutcomeOf(c, call).Stopped?
  {
  }
}
