/** Which rule the conformance checker reports (`src/conformance.rs`). */
module StreamRules {
  import opened Wrappers
  import opened Protocol
  import opened Conformance

  /** The rule that an envelope breaks besides the order of cursors, told from
      what came before it in its round. */
  function RuleBroken(envelopes: seq<Envelope>, n: nat): Option<Rule>
    requires n < |envelopes|
  {
    var executed, over, begun := Since(envelopes, n, IsTool), Over(envelopes, n), Opened(envelopes, n);
    var passed := begun && (Since(envelopes, n, Barrier) || Since(envelopes, n, Streams));
    match envelopes[n].event
    case ReasoningDelta(_) => if executed || over || passed then Some(ReasoningOutside) else None
    case ReasoningCompleted =>
      if executed || over || passed then Some(BarrierOutside)
      else if begun && !Since(envelopes, n, Reasons) then Some(BarrierWithoutReasoning)
      else None
    case TextDelta(_) => if executed || over || (begun && Since(envelopes, n, Streams)) then Some(TextAfterTools) else None
    case ToolCallStreaming(_, received) =>
      if executed || over then Some(StreamingAfterExecution)
      else if begun && StreamedMore(envelopes, n, received) then Some(BytesBackwards)
      else None
    case e =>
      if !over then None
      else if IsTool(e) then Some(ToolAfterTerminal)
      else if IsTerminal(e) then Some(SecondTerminal)
      else None
  }

  lemma BrokenIs(envelopes: seq<Envelope>, n: nat, s: Checker)
    requires n < |envelopes| && Tracks(envelopes, n, s)
    ensures Broken(s, envelopes[n].event) == RuleBroken(envelopes, n)
  {
    match envelopes[n].event
    case ToolCallStreaming(_, received) =>
      if StreamedMore(envelopes, n, received) {
        MoreMeansStreamed(envelopes, n, received);
      }
    case _ =>
  }

  lemma {:induction false} ViolationsGrow(envelopes: seq<Envelope>, n: nat)
    requires n <= |envelopes|
    ensures Violations(envelopes[..n]) <= Violations(envelopes)
    decreases |envelopes| - n
  {
    if n < |envelopes| {
      Extend(envelopes, n);
      ViolationsGrow(envelopes, n + 1);
    } else {
      assert envelopes[..n] == envelopes;
    }
  }

  /** The first envelope that is reported is reported for what it breaks: the
      order of cursors, and the rule told from the events before it. */
  lemma FirstViolationIs(envelopes: seq<Envelope>, n: nat)
    requires n < |envelopes| && Accepts(envelopes[..n])
    ensures Faults(envelopes, n) <= Violations(envelopes)
  {
    AcceptsIffAllLegal(envelopes, n);
    ReportsAre(envelopes, n, After(envelopes[..n]));
    Extend(envelopes, n);
    ViolationsGrow(envelopes, n + 1);
    NothingBefore(Violations(envelopes[..n]), Reports(After(envelopes[..n]), n, envelopes[n]));
  }

  lemma NothingBefore<T>(a: seq<T>, b: seq<T>)
    requires a == []
    ensures a + b == b
  {
  }

  lemma ReportsAre(envelopes: seq<Envelope>, n: nat, s: Checker)
    requires n < |envelopes| && Tracks(envelopes, n, s)
    ensures Reports(s, n, envelopes[n]) == Faults(envelopes, n)
  {
    BrokenIs(envelopes, n, s);
  }

  /** What the envelope is to be reported for. */
  function Faults(envelopes: seq<Envelope>, n: nat): seq<Violation>
    requires n < |envelopes|
  {
    (if envelopes[n].cursor <= (if n == 0 then 0 else envelopes[n - 1].cursor) then [Violation(n, CursorOrder)] else [])
    + (if RuleBroken(envelopes, n).Some? then [Violation(n, RuleBroken(envelopes, n).value)] else [])
  }
}
