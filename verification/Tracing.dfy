/** Replay traces: numbered events appended one at a time. */
module Tracing {

  datatype AgentPhase = Observe | Compile | Plan | Preflight | Execute | Verify | Repair | Commit | Refuse | Rollback

  datatype EventStatus =
    | Okay | Failed | Requested | Preview | AppliedRun | RefusedRun | Accepted | Rejected
    | PreviewOnly | Committed | RollbackDone | RollbackRefused | PostCommitVerificationFailed | RepairBudgetExhausted

  /** What is recorded; attempt 0 stands for "not part of an attempt". */
  datatype Mark = Mark(phase: AgentPhase, status: EventStatus, attempt: nat)

  datatype TraceEvent = TraceEvent(sequence: nat, mark: Mark)

  /** The events of a word of marks: sequence numbers are positions. */
  function Numbered(word: seq<Mark>): seq<TraceEvent>
  {
    seq(|word|, i requires 0 <= i < |word| => TraceEvent(i, word[i]))
  }

  class TraceBuilder {
    var events: seq<TraceEvent>
    ghost var word: seq<Mark>

    ghost predicate Valid()
      reads this
    {
      events == Numbered(word)
    }

    constructor ()
      ensures Valid() && word == []
    {
      events, word := [], [];
    }

    method Record(phase: AgentPhase, status: EventStatus, attempt: nat := 0)
      requires Valid()
      modifies this
      ensures Valid() && word == old(word) + [Mark(phase, status, attempt)]
    {
      events := events + [TraceEvent(|events|, Mark(phase, status, attempt))];
      word := word + [Mark(phase, status, attempt)];
    }

    method Finish() returns (trace: seq<TraceEvent>)
      requires Valid()
      ensures trace == Numbered(word)
    {
      trace := events;
    }
  }
}
