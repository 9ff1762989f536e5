/** The stream rules every consumer relies on (`src/conformance.rs`). */
module Conformance {
  import opened Wrappers
  import opened Sequences
  import opened Protocol
  import opened EventBridge

  datatype RoundPhase = Unopened | Reasoning | Body | ToolStreaming | ToolExecution | Ended

  datatype Rule =
    | CursorOrder
    | ReasoningOutside
    | BarrierWithoutReasoning
    | BarrierOutside
    | TextAfterTools
    | BytesBackwards
    | StreamingAfterExecution
    | ToolAfterTerminal
    | SecondTerminal

  datatype Violation = Violation(index: nat, rule: Rule)

  /** What the checker knows after some envelopes. */
  datatype Checker = Checker(lastCursor: nat, phase: RoundPhase, reasoningDeltas: nat, toolStreamBytes: Option<nat>)

  const START := Checker(0, Unopened, 0, None)

  predicate IsTool(e: Event) {
    e.Approval? || e.ToolStarted? || e.ToolFinished?
  }

  predicate IsTerminal(e: Event) {
    e.Completed? || e.Failed? || e.Cancelled?
  }

  function Broken(s: Checker, e: Event): Option<Rule> {
    match e
    case ReasoningDelta(_) =>
      if s.phase == Reasoning || s.phase == Unopened then None else Some(ReasoningOutside)
    case ReasoningCompleted =>
      if s.phase == Reasoning then if s.reasoningDeltas == 0 then Some(BarrierWithoutReasoning) else None
      else if s.phase == Unopened then None else Some(BarrierOutside)
    case TextDelta(_) =>
      if s.phase in {Unopened, Reasoning, Body} then None else Some(TextAfterTools)
    case ToolCallStreaming(_, received) =>
      if s.phase == Unopened then None
      else if s.phase in {Reasoning, Body, ToolStreaming} then
        if s.toolStreamBytes.Some? && received < s.toolStreamBytes.value then Some(BytesBackwards) else None
      else Some(StreamingAfterExecution)
    case _ =>
      if IsTool(e) && s.phase == Ended then Some(ToolAfterTerminal)
      else if IsTerminal(e) && s.phase == Ended then Some(SecondTerminal)
      else None
  }

  function Next(s: Checker, envelope: Envelope): Checker {
    var t := s.(lastCursor := envelope.cursor);
    match envelope.event
    case ModelStreaming => Checker(envelope.cursor, Reasoning, 0, None)
    case ReasoningDelta(_) => if s.phase == Reasoning then t.(reasoningDeltas := s.reasoningDeltas + 1) else t
    case ReasoningCompleted => if s.phase == Reasoning then t.(phase := Body) else t
    case ToolCallStreaming(_, received) =>
      if s.phase in {Reasoning, Body, ToolStreaming} then t.(phase := ToolStreaming, toolStreamBytes := Some(received)) else t
    case _ =>
      if IsTool(envelope.event) && s.phase != Ended then t.(phase := ToolExecution)
      else if IsTerminal(envelope.event) && s.phase != Unopened then t.(phase := Ended)
      else t
  }

  /** What one more envelope is reported for. */
  function Reports(s: Checker, index: nat, envelope: Envelope): seq<Violation> {
    var broken := Broken(s, envelope.event);
    (if envelope.cursor <= s.lastCursor then [Violation(index, CursorOrder)] else [])
    + (if broken.Some? then [Violation(index, broken.value)] else [])
  }

  function After(envelopes: seq<Envelope>): Checker {
    if envelopes == [] then START
    else Next(After(envelopes[..|envelopes| - 1]), envelopes[|envelopes| - 1])
  }

  function Violations(envelopes: seq<Envelope>): seq<Violation> {
    if envelopes == [] then []
    else
      var before := envelopes[..|envelopes| - 1];
      Violations(before) + Reports(After(before), |before|, envelopes[|before|])
  }

  predicate Accepts(envelopes: seq<Envelope>) {
    Violations(envelopes) == []
  }

  /** The loop body's match: the rule the event breaks, and the new state. */
  method Observe(s: Checker, envelope: Envelope) returns (t: Checker, broken: Option<Rule>)
    ensures t == Next(s, envelope)
    ensures broken == Broken(s, envelope.event)
  {
    var phase, reasoningDeltas, toolStreamBytes := s.phase, s.reasoningDeltas, s.toolStreamBytes;
    broken := None;
    match envelope.event {
      case ModelStreaming =>
        phase, reasoningDeltas, toolStreamBytes := Reasoning, 0, None;
      case ReasoningDelta(_) =>
        if phase == Reasoning {
          reasoningDeltas := reasoningDeltas + 1;
        } else if phase != Unopened {
          broken := Some(ReasoningOutside);
        }
      case ReasoningCompleted =>
        if phase == Reasoning {
          if reasoningDeltas == 0 {
            broken := Some(BarrierWithoutReasoning);
          }
          phase := Body;
        } else if phase != Unopened {
          broken := Some(BarrierOutside);
        }
      case TextDelta(_) =>
        if phase == ToolStreaming || phase == ToolExecution || phase == Ended {
          broken := Some(TextAfterTools);
        }
      case ToolCallStreaming(_, received) =>
        if phase == Reasoning || phase == Body || phase == ToolStreaming {
          if toolStreamBytes.Some? && received < toolStreamBytes.value {
            broken := Some(BytesBackwards);
          }
          toolStreamBytes, phase := Some(received), ToolStreaming;
        } else if phase != Unopened {
          broken := Some(StreamingAfterExecution);
        }
      case _ =>
        if IsTool(envelope.event) {
          if phase == Ended {
            broken := Some(ToolAfterTerminal);
          } else {
            phase := ToolExecution;
          }
        } else if IsTerminal(envelope.event) {
          if phase == Ended {
            broken := Some(SecondTerminal);
          } else if phase != Unopened {
            phase := Ended;
          }
        }
    }
    t := Checker(envelope.cursor, phase, reasoningDeltas, toolStreamBytes);
  }

  /** Loops over the envelopes, moving the phase and collecting violations. */
  method CheckStreamInvariants(envelopes: seq<Envelope>) returns (r: Result<(), seq<Violation>>)
    ensures r.Ok? <==> Accepts(envelopes)
    ensures r.Err? ==> r.error == Violations(envelopes)
  {
    var violations: seq<Violation> := [];
    var state := START;
    for index := 0 to |envelopes|
      invariant state == After(envelopes[..index])
      invariant violations == Violations(envelopes[..index])
    {
      var envelope := envelopes[index];
      Extend(envelopes, index);
      if envelope.cursor <= state.lastCursor {
        violations := violations + [Violation(index, CursorOrder)];
      }
      var next, broken := Observe(state, envelope);
      if broken.Some? {
        violations := violations + [Violation(index, broken.value)];
      }
      state := next;
    }
    assert envelopes[..|envelopes|] == envelopes;
    r := if violations == [] then Ok(()) else Err(violations);
  }

  lemma Extend(envelopes: seq<Envelope>, n: nat)
    requires n < |envelopes|
    ensures After(envelopes[..n + 1]) == Next(After(envelopes[..n]), envelopes[n])
    ensures Violations(envelopes[..n + 1]) == Violations(envelopes[..n]) + Reports(After(envelopes[..n]), n, envelopes[n])
  {
    assert envelopes[..n + 1][..n] == envelopes[..n];
  }

  // ------------------------------------------------------ the documented rules

  /** `p` holds of an event since the last `ModelStreaming`. */
  function Since(envelopes: seq<Envelope>, n: nat, p: Event -> bool): bool
    requires n <= |envelopes|
  {
    n > 0 && !envelopes[n - 1].event.ModelStreaming? && (p(envelopes[n - 1].event) || Since(envelopes, n - 1, p))
  }

  /** The stream shows where the round of position `n` begins. */
  predicate Opened(envelopes: seq<Envelope>, n: nat)
    requires n <= |envelopes|
  {
    n > 0 && (envelopes[n - 1].event.ModelStreaming? || Opened(envelopes, n - 1))
  }

  predicate Reasons(e: Event) { e.ReasoningDelta? }
  predicate Barrier(e: Event) { e.ReasoningCompleted? }
  predicate Streams(e: Event) { e.ToolCallStreaming? }

  /** Some tool-call progress since the round began already reported more. */
  function StreamedMore(envelopes: seq<Envelope>, n: nat, received: nat): bool
    requires n <= |envelopes|
  {
    n > 0 && !envelopes[n - 1].event.ModelStreaming? && (
      (envelopes[n - 1].event.ToolCallStreaming? && envelopes[n - 1].event.receivedBytes > received)
      || StreamedMore(envelopes, n - 1, received))
  }

  /** A round joined midway is first noticed by its tool events. */
  function EndedUnopened(envelopes: seq<Envelope>, n: nat): bool
    requires n <= |envelopes|
  {
    n > 0 && (EndedUnopened(envelopes, n - 1) || (IsTerminal(envelopes[n - 1].event) && Since(envelopes, n - 1, IsTool)))
  }

  predicate Over(envelopes: seq<Envelope>, n: nat)
    requires n <= |envelopes|
  {
    if Opened(envelopes, n) then Since(envelopes, n, IsTerminal) else EndedUnopened(envelopes, n)
  }

  /** The rule for one envelope, told from what came before it in its round. */
  predicate Legal(envelopes: seq<Envelope>, n: nat)
    requires n < |envelopes|
  {
    && envelopes[n].cursor > (if n == 0 then 0 else envelopes[n - 1].cursor)
    && match envelopes[n].event
      case ReasoningDelta(_) =>
        !Since(envelopes, n, IsTool) && !Over(envelopes, n)
        && (Opened(envelopes, n) ==> !Since(envelopes, n, Barrier) && !Since(envelopes, n, Streams))
      case ReasoningCompleted =>
        !Since(envelopes, n, IsTool) && !Over(envelopes, n)
        && (Opened(envelopes, n) ==>
          !Since(envelopes, n, Barrier) && !Since(envelopes, n, Streams) && Since(envelopes, n, Reasons))
      case TextDelta(_) =>
        !Since(envelopes, n, IsTool) && !Over(envelopes, n)
        && (Opened(envelopes, n) ==> !Since(envelopes, n, Streams))
      case ToolCallStreaming(_, received) =>
        !Since(envelopes, n, IsTool) && !Over(envelopes, n)
        && (Opened(envelopes, n) ==> !StreamedMore(envelopes, n, received))
      case e => IsTool(e) || IsTerminal(e) ==> !Over(envelopes, n)
  }

  // ----------------------------------------- the checker applies these rules

  /** The phase is what the events since the round began make it. */
  ghost predicate Tracks(envelopes: seq<Envelope>, n: nat, s: Checker)
    requires n <= |envelopes|
  {
    && s.lastCursor == (if n == 0 then 0 else envelopes[n - 1].cursor)
    && (s.phase == Ended <==> Over(envelopes, n))
    && (s.phase != Ended ==> (s.phase == ToolExecution <==> Since(envelopes, n, IsTool)))
    && (!Opened(envelopes, n) ==> s.phase in {Unopened, ToolExecution, Ended})
    && (Opened(envelopes, n) ==> TracksRound(envelopes, n, s))
  }

  ghost predicate TracksRound(envelopes: seq<Envelope>, n: nat, s: Checker)
    requires n <= |envelopes|
  {
    match s.phase
    case Unopened => false
    case Reasoning =>
      && !Since(envelopes, n, Barrier) && !Since(envelopes, n, Streams) && s.toolStreamBytes == None
      && (s.reasoningDeltas > 0 <==> Since(envelopes, n, Reasons))
    case Body => Since(envelopes, n, Barrier) && !Since(envelopes, n, Streams) && s.toolStreamBytes == None
    case ToolStreaming =>
      && Since(envelopes, n, Streams) && s.toolStreamBytes.Some?
      && forall received: nat :: StreamedMore(envelopes, n, received) <==> received < s.toolStreamBytes.value
    case _ => true
  }

  lemma {:induction false} MoreMeansStreamed(envelopes: seq<Envelope>, n: nat, received: nat)
    requires n <= |envelopes| && StreamedMore(envelopes, n, received)
    ensures Since(envelopes, n, Streams)
  {
    if !envelopes[n - 1].event.ToolCallStreaming? {
      MoreMeansStreamed(envelopes, n - 1, received);
    }
  }

  lemma ReportsIffIllegal(envelopes: seq<Envelope>, n: nat, s: Checker)
    requires n < |envelopes| && Tracks(envelopes, n, s)
    ensures Reports(s, n, envelopes[n]) == [] <==> Legal(envelopes, n)
  {
    match envelopes[n].event
    case ToolCallStreaming(_, received) =>
      if StreamedMore(envelopes, n, received) {
        MoreMeansStreamed(envelopes, n, received);
      }
    case _ =>
  }

  lemma TracksStep(envelopes: seq<Envelope>, n: nat, s: Checker)
    requires n < |envelopes| && Tracks(envelopes, n, s) && Legal(envelopes, n)
    ensures Tracks(envelopes, n + 1, Next(s, envelopes[n]))
  {
    var m, e := n + 1, envelopes[n].event;
    forall received: nat
      ensures StreamedMore(envelopes, m, received) <==>
        !e.ModelStreaming? && ((e.ToolCallStreaming? && e.receivedBytes > received) || StreamedMore(envelopes, n, received))
    {
      if StreamedMore(envelopes, n, received) {
        MoreMeansStreamed(envelopes, n, received);
      }
    }
    forall received: nat | StreamedMore(envelopes, n, received) ensures Since(envelopes, n, Streams) {
      MoreMeansStreamed(envelopes, n, received);
    }
  }

  predicate AllLegal(envelopes: seq<Envelope>, n: nat)
    requires n <= |envelopes|
  {
    n == 0 || (AllLegal(envelopes, n - 1) && Legal(envelopes, n - 1))
  }

  lemma LegalStep(envelopes: seq<Envelope>, n: nat, s: Checker)
    requires n < |envelopes| && Tracks(envelopes, n, s)
    ensures Reports(s, n, envelopes[n]) == [] <==> Legal(envelopes, n)
    ensures Legal(envelopes, n) ==> Tracks(envelopes, n + 1, Next(s, envelopes[n]))
  {
    ReportsIffIllegal(envelopes, n, s);
    if Legal(envelopes, n) {
      TracksStep(envelopes, n, s);
    }
  }

  lemma {:induction false} AcceptsIffAllLegal(envelopes: seq<Envelope>, n: nat)
    requires n <= |envelopes|
    ensures AgreesAt(envelopes, n)
  {
    if n > 0 {
      AcceptsIffAllLegal(envelopes, n - 1);
      AgreesNext(envelopes, n - 1);
    }
  }

  /** The automaton and the rules agree on the first `n` envelopes. */
  ghost predicate AgreesAt(envelopes: seq<Envelope>, n: nat)
    requires n <= |envelopes|
  {
    && (Accepts(envelopes[..n]) <==> AllLegal(envelopes, n))
    && (Accepts(envelopes[..n]) ==> Tracks(envelopes, n, After(envelopes[..n])))
  }

  lemma AgreesNext(envelopes: seq<Envelope>, n: nat)
    requires n < |envelopes| && AgreesAt(envelopes, n)
    ensures AgreesAt(envelopes, n + 1)
  {
    AcceptsPrefix(envelopes, n);
    if Accepts(envelopes[..n]) {
      LegalStep(envelopes, n, After(envelopes[..n]));
    }
  }

  lemma {:induction false} AllLegalMeans(envelopes: seq<Envelope>, n: nat)
    requires n <= |envelopes|
    ensures AllLegal(envelopes, n) <==> forall i :: 0 <= i < n ==> Legal(envelopes, i)
  {
    if n > 0 {
      AllLegalMeans(envelopes, n - 1);
    }
  }

  /** The automaton accepts exactly the streams in which every envelope obeys
      the rule told from the events before it. */
  lemma AcceptsIffLegal(envelopes: seq<Envelope>)
    ensures Accepts(envelopes) <==> forall i :: 0 <= i < |envelopes| ==> Legal(envelopes, i)
  {
    assert envelopes[..|envelopes|] == envelopes;
    AcceptsIffAllLegal(envelopes, |envelopes|);
    AllLegalMeans(envelopes, |envelopes|);
  }

  lemma AcceptsPrefix(envelopes: seq<Envelope>, n: nat)
    requires n < |envelopes|
    ensures Accepts(envelopes[..n + 1]) <==> Accepts(envelopes[..n]) && Reports(After(envelopes[..n]), n, envelopes[n]) == []
    ensures After(envelopes[..n + 1]) == Next(After(envelopes[..n]), envelopes[n])
  {
    Extend(envelopes, n);
  }

  lemma AcceptsSnoc(envelopes: seq<Envelope>, last: Envelope)
    ensures Accepts(envelopes + [last]) <==> Accepts(envelopes) && Reports(After(envelopes), |envelopes|, last) == []
    ensures After(envelopes + [last]) == Next(After(envelopes), last)
  {
    assert (envelopes + [last])[..|envelopes|] == envelopes;
  }

  // ------------------------------------------------------------ replay slices

  /** `t`, which joined later, knows less than `s` but nothing different. */
  predicate Weaker(t: Checker, s: Checker) {
    && t.lastCursor <= s.lastCursor
    && (t.phase == Unopened || (
      && t.phase == s.phase
      && (t.phase in {Reasoning, Body, ToolStreaming} ==>
        t.reasoningDeltas == s.reasoningDeltas && t.toolStreamBytes == s.toolStreamBytes)))
  }

  lemma WeakerStep(t: Checker, s: Checker, index: nat, i: nat, envelope: Envelope)
    requires Weaker(t, s) && Reports(s, index, envelope) == []
    ensures Reports(t, i, envelope) == [] && Weaker(Next(t, envelope), Next(s, envelope))
  {
  }

  lemma SliceStep(envelopes: seq<Envelope>, k: nat, n: nat)
    requires k <= n < |envelopes| && Accepts(envelopes[k..n]) && Weaker(After(envelopes[k..n]), After(envelopes[..n]))
    requires Reports(After(envelopes[..n]), n, envelopes[n]) == []
    ensures Accepts(envelopes[k..n + 1]) && Weaker(After(envelopes[k..n + 1]), After(envelopes[..n + 1]))
  {
    SliceSnoc(envelopes, k, n);
    AcceptsSnoc(envelopes[k..n], envelopes[n]);
    WeakerStep(After(envelopes[k..n]), After(envelopes[..n]), n, n - k, envelopes[n]);
    Extend(envelopes, n);
  }

  lemma {:induction false} SliceIsWeaker(envelopes: seq<Envelope>, k: nat, n: nat)
    requires k <= n <= |envelopes| && Accepts(envelopes[..n])
    ensures Accepts(envelopes[k..n]) && Weaker(After(envelopes[k..n]), After(envelopes[..n]))
    decreases n
  {
    if k < n {
      AcceptsPrefix(envelopes, n - 1);
      SliceIsWeaker(envelopes, k, n - 1);
      SliceStep(envelopes, k, n - 1);
    } else {
      assert envelopes[k..n] == [];
    }
  }

  /** Every suffix of an accepted stream is accepted. */
  lemma SuffixIsAccepted(envelopes: seq<Envelope>, k: nat)
    requires k <= |envelopes| && Accepts(envelopes)
    ensures Accepts(envelopes[k..])
  {
    assert envelopes[..|envelopes|] == envelopes && envelopes[k..|envelopes|] == envelopes[k..];
    SliceIsWeaker(envelopes, k, |envelopes|);
  }

  /** The envelopes of one session. */
  function Session(log: seq<Envelope>, id: string): seq<Envelope> {
    if log == [] then []
    else (if log[0].sessionId == id then [log[0]] else []) + Session(log[1..], id)
  }

  lemma {:induction false} SessionOfSuffix(log: seq<Envelope>, id: string, k: nat)
    requires k <= |log|
    ensures |Session(log[k..], id)| <= |Session(log, id)|
    ensures Session(log[k..], id) == Session(log, id)[|Session(log, id)| - |Session(log[k..], id)|..]
    decreases k
  {
    if k == 0 {
      assert log[0..] == log;
    } else {
      SessionOfSuffix(log[1..], id, k - 1);
      assert log[1..][k - 1..] == log[k..];
    }
  }

  /** So what the bridge replays of a session, from any cursor it still serves,
      is accepted whenever the session's whole stream is. */
  lemma ReplayIsAccepted(log: seq<Envelope>, retained: nat, after: nat, id: string)
    requires Accepts(Session(log, id)) && Owed(log, retained, after).Ok?
    ensures Accepts(Session(Owed(log, retained, after).value, id))
  {
    if after <= |log| {
      SessionOfSuffix(log, id, after);
      SuffixIs(Session(log, id), Session(log[after..], id));
    }
  }

  lemma SuffixIs(envelopes: seq<Envelope>, rest: seq<Envelope>)
    requires Accepts(envelopes) && |rest| <= |envelopes| && rest == envelopes[|envelopes| - |rest|..]
    ensures Accepts(rest)
  {
    SuffixIsAccepted(envelopes, |envelopes| - |rest|);
  }

  lemma StillAccepted(envelopes: seq<Envelope>, s: Checker, last: Envelope, t: Checker)
    requires Accepts(envelopes) && After(envelopes) == s && Reports(s, |envelopes|, last) == [] && t == Next(s, last)
    ensures Accepts(envelopes + [last]) && After(envelopes + [last]) == t
  {
    AcceptsSnoc(envelopes, last);
  }

  /** The documented order has all text after the barrier; the checker also
      accepts text between two reasoning deltas. */
  lemma TextWithinReasoningIsAccepted(a: string, b: string, c: string)
    ensures Accepts([
      Envelope(1, "", ModelStreaming), Envelope(2, "", ReasoningDelta(a)), Envelope(3, "", TextDelta(b)),
      Envelope(4, "", ReasoningDelta(c)), Envelope(5, "", ReasoningCompleted)])
  {
    var s1 := [Envelope(1, "", ModelStreaming)];
    var s2 := s1 + [Envelope(2, "", ReasoningDelta(a))];
    var s3 := s2 + [Envelope(3, "", TextDelta(b))];
    var s4 := s3 + [Envelope(4, "", ReasoningDelta(c))];
    assert [] + s1 == s1;
    StillAccepted([], START, Envelope(1, "", ModelStreaming), Checker(1, Reasoning, 0, None));
    StillAccepted(s1, Checker(1, Reasoning, 0, None), Envelope(2, "", ReasoningDelta(a)), Checker(2, Reasoning, 1, None));
    StillAccepted(s2, Checker(2, Reasoning, 1, None), Envelope(3, "", TextDelta(b)), Checker(3, Reasoning, 1, None));
    StillAccepted(s3, Checker(3, Reasoning, 1, None), Envelope(4, "", ReasoningDelta(c)), Checker(4, Reasoning, 2, None));
    StillAccepted(s4, Checker(4, Reasoning, 2, None), Envelope(5, "", ReasoningCompleted), Checker(5, Body, 2, None));
    assert s4 + [Envelope(5, "", ReasoningCompleted)] == [
      Envelope(1, "", ModelStreaming), Envelope(2, "", ReasoningDelta(a)), Envelope(3, "", TextDelta(b)),
      Envelope(4, "", ReasoningDelta(c)), Envelope(5, "", ReasoningCompleted)];
  }
}
