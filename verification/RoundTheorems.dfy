/** When the stream a run emits is one the checker of `src/conformance.rs`
    accepts: exactly when every model round delivered its parts in order. */
module RoundTheorems {
  import opened Wrappers
  import opened Sequences
  import opened Protocol
  import opened StreamCollecting
  import opened Conformance
  import opened Forwarding
  import Utf8

  // ------------------------------------------------------ numbering the stream

  /** The bridge numbers the events of a run one by one. */
  function Numbered(events: seq<Event>): seq<Envelope> {
    if events == [] then []
    else Numbered(events[..|events| - 1]) + [Envelope(|events|, "", events[|events| - 1])]
  }

  predicate Fine(events: seq<Event>) {
    Accepts(Numbered(events))
  }

  function State(events: seq<Event>): Checker {
    After(Numbered(events))
  }

  function Broke(s: Checker, e: Event): bool {
    Broken(s, e).Some?
  }

  function Then(s: Checker, e: Event): Checker {
    Next(s, Envelope(s.lastCursor + 1, "", e))
  }

  lemma {:induction false} LastCursor(events: seq<Event>)
    ensures |Numbered(events)| == |events| && State(events).lastCursor == |events|
  {
    if events != [] {
      LastCursor(events[..|events| - 1]);
      var numbered := Numbered(events);
      assert numbered[..|events| - 1] == Numbered(events[..|events| - 1]);
    }
  }

  lemma FineSnoc(events: seq<Event>, e: Event)
    ensures Fine(events + [e]) <==> Fine(events) && !Broke(State(events), e)
    ensures State(events + [e]) == Then(State(events), e)
  {
    assert (events + [e])[..|events|] == events;
    LastCursor(events);
    AcceptsSnoc(Numbered(events), Envelope(|events| + 1, "", e));
  }

  // ------------------------------------------------------- what rounds may send

  predicate Thinks(e: ModelEvent) { e.ReasoningDelta? }
  predicate ReallyThinks(e: ModelEvent) { e.ReasoningDelta? && e.delta != "" }
  predicate Calls(e: ModelEvent) { e.ToolCallDelta? }

  /** An event of kind `p` is among the first `n`. */
  predicate Had(events: seq<ModelEvent>, n: nat, p: ModelEvent -> bool)
    requires n <= |events|
  {
    n > 0 && (p(events[n - 1]) || Had(events, n - 1, p))
  }

  /** Some text among the first `n` events came after some reasoning. */
  predicate Answered(events: seq<ModelEvent>, n: nat)
    requires n <= |events|
  {
    n > 0 && (Answered(events, n - 1) || (events[n - 1].TextDelta? && Had(events, n - 1, Thinks)))
  }

  /** Reasoning comes before the answer and the tool calls, the answer before
      the tool calls, and an answer that ends a reasoning phase ends one in
      which something was reasoned. Empty deltas are not sent. */
  predicate Permitted(events: seq<ModelEvent>, n: nat)
    requires n < |events|
  {
    match events[n]
    case ReasoningDelta(delta) => delta != "" ==> !Had(events, n, Calls) && !Answered(events, n)
    case TextDelta(delta) =>
      if Had(events, n, Thinks) && !Answered(events, n)
      then Had(events, n, ReallyThinks) && !Had(events, n, Calls)
      else delta != "" ==> !Had(events, n, Calls)
    case _ => true
  }

  predicate InOrder(events: seq<ModelEvent>) {
    forall n :: 0 <= n < |events| ==> Permitted(events, n)
  }

  // ------------------------------------------------------ one kind at a time

  /** Changes nothing the stream rules look at. */
  predicate Neutral(e: Event) {
    && !e.ModelStreaming? && !e.ReasoningDelta? && !e.ReasoningCompleted? && !e.TextDelta? && !e.ToolCallStreaming?
    && !IsTool(e) && !IsTerminal(e)
  }

  predicate Same(s: Checker, t: Checker) {
    s.phase == t.phase && s.reasoningDeltas == t.reasoningDeltas && s.toolStreamBytes == t.toolStreamBytes
  }

  predicate TakesText(s: Checker) {
    s.phase == Unopened || s.phase == Reasoning || s.phase == Body
  }

  lemma AppendText(sent: seq<Event>, chunk: string)
    ensures Fine(sent + [TextEvent(chunk)]) <==> Fine(sent) && TakesText(State(sent))
    ensures Same(State(sent + [TextEvent(chunk)]), State(sent))
  {
    FineSnoc(sent, TextEvent(chunk));
  }

  lemma {:induction false} AppendTexts(sent: seq<Event>, chunks: seq<string>)
    ensures var all := sent + Mapped(chunks, TextEvent);
      && (Fine(all) <==> Fine(sent) && (chunks == [] || TakesText(State(sent))))
      && Same(State(all), State(sent))
    decreases |chunks|
  {
    if chunks == [] {
      assert sent + Mapped(chunks, TextEvent) == sent;
    } else {
      var next := sent + [TextEvent(chunks[0])];
      AppendText(sent, chunks[0]);
      Assoc(sent, [TextEvent(chunks[0])], Mapped(chunks[1..], TextEvent));
      AppendTexts(next, chunks[1..]);
    }
  }

  lemma {:induction false} StaysBroken(sent: seq<Event>, more: seq<Event>)
    requires !Fine(sent)
    ensures !Fine(sent + more)
    decreases |more|
  {
    if more == [] {
      assert sent + more == sent;
    } else {
      FineSnoc(sent, more[0]);
      assert sent + more == sent + [more[0]] + more[1..];
      StaysBroken(sent + [more[0]], more[1..]);
    }
  }

  lemma {:induction false} AppendReasonings(sent: seq<Event>, chunks: seq<string>)
    requires Fine(sent) && State(sent).phase != Unopened
    ensures var all := sent + Mapped(chunks, ReasoningEvent);
      && (Fine(all) <==> chunks == [] || State(sent).phase == Reasoning)
      && (Fine(all) ==> State(all).phase == State(sent).phase && State(all).toolStreamBytes == State(sent).toolStreamBytes)
      && (Fine(all) ==> (State(all).reasoningDeltas > 0 <==> State(sent).reasoningDeltas > 0 || chunks != []))
    decreases |chunks|
  {
    var make := ReasoningEvent;
    if chunks == [] {
      assert sent + Mapped(chunks, make) == sent;
    } else {
      var next := sent + [make(chunks[0])];
      FineSnoc(sent, make(chunks[0]));
      assert sent + Mapped(chunks, make) == next + Mapped(chunks[1..], make);
      if Fine(next) {
        AppendReasonings(next, chunks[1..]);
      } else {
        StaysBroken(next, Mapped(chunks[1..], make));
      }
    }
  }

  // ---------------------------------------------------------------- one round

  /** What the closure's variables say about the first `n` events. */
  lemma {:induction false} MovedMeans(events: seq<ModelEvent>, n: nat)
    requires n <= |events|
    ensures var p := Moved(events[..n]);
      && (p.reasoningSeen <==> Had(events, n, Thinks))
      && (p.reasoningEmitted <==> Answered(events, n))
      && (!Had(events, n, Calls) ==> p.toolBytes == 0)
  {
    if n > 0 {
      MovedMeans(events, n - 1);
      assert events[..n][..n - 1] == events[..n - 1];
    }
  }

  /** The checker after `sent`, which ends with the round's first `n` events. */
  ghost predicate Tracks(events: seq<ModelEvent>, n: nat, s: Checker)
    requires n <= |events|
  {
    && s.phase == (if Had(events, n, Calls) then ToolStreaming else if Answered(events, n) then Body else Reasoning)
    && (s.phase == Reasoning ==> (s.reasoningDeltas > 0 <==> Had(events, n, ReallyThinks)))
    && (s.toolStreamBytes.Some? ==> s.toolStreamBytes.value <= Moved(events[..n]).toolBytes)
  }

  lemma MovedNext(events: seq<ModelEvent>, n: nat)
    requires n < |events|
    ensures Moved(events[..n + 1]) == Moves(Moved(events[..n]), events[n])
  {
    assert events[..n + 1][..n] == events[..n];
  }

  lemma AppendBarrier(sent: seq<Event>)
    requires State(sent).phase == Reasoning || State(sent).phase == Body || State(sent).phase == ToolStreaming
    ensures var s, next := State(sent), sent + [ReasoningCompleted];
      && (Fine(next) <==> Fine(sent) && s.phase == Reasoning && s.reasoningDeltas > 0)
      && Same(State(next), if s.phase == Reasoning then s.(phase := Body) else s)
  {
    FineSnoc(sent, ReasoningCompleted);
  }

  /** Sending `text`, with the barrier before it if it is due. */
  lemma AppendAnswer(sent: seq<Event>, barrier: bool, text: string, max: nat)
    requires State(sent).phase == Reasoning || State(sent).phase == Body || State(sent).phase == ToolStreaming
    ensures var s, all := State(sent), sent + ((if barrier then [ReasoningCompleted] else []) + Texts(text, max));
      && (Fine(all) <==>
        Fine(sent) && if barrier then s.phase == Reasoning && s.reasoningDeltas > 0 else text == "" || s.phase != ToolStreaming)
      && Same(State(all), if barrier && s.phase == Reasoning then s.(phase := Body) else s)
  {
    var chunks := Utf8.Chunks(text, max);
    if barrier {
      var next := sent + [ReasoningCompleted];
      AppendBarrier(sent);
      Assoc(sent, [ReasoningCompleted], Texts(text, max));
      AppendTexts(next, chunks);
    } else {
      assert [] + Texts(text, max) == Texts(text, max);
      AppendTexts(sent, chunks);
    }
  }

  predicate NoStepBack(s: Checker, e: Event) {
    e.ToolCallStreaming? && s.toolStreamBytes.Some? ==> s.toolStreamBytes.value <= e.receivedBytes
  }

  function Reported(s: Checker, e: Event): Checker {
    if e.ToolCallStreaming? then s.(phase := ToolStreaming, toolStreamBytes := Some(e.receivedBytes)) else s
  }

  lemma OtherEvent(s: Checker, e: Event)
    requires (Neutral(e) || e.ToolCallStreaming?) && s.phase in {Reasoning, Body, ToolStreaming}
    ensures Broke(s, e) <==> !NoStepBack(s, e)
    ensures Same(Then(s, e), Reported(s, e))
  {
  }

  /** Sending at most one event that is neither text nor reasoning. */
  lemma AppendOther(sent: seq<Event>, more: seq<Event>)
    requires |more| <= 1 && (more != [] ==> Neutral(more[0]) || more[0].ToolCallStreaming?)
    requires State(sent).phase in {Reasoning, Body, ToolStreaming}
    ensures var s, all := State(sent), sent + more;
      && (Fine(all) <==> Fine(sent) && (more != [] ==> NoStepBack(s, more[0])))
      && Same(State(all), if more != [] then Reported(s, more[0]) else s)
  {
    if more == [] {
      assert sent + more == sent;
    } else {
      assert more == [more[0]];
      FineSnoc(sent, more[0]);
      OtherEvent(State(sent), more[0]);
    }
  }

  /** What one event does to the tracked facts, on the checker's side. */
  lemma TextTracks(events: seq<ModelEvent>, n: nat, s: Checker, t: Checker)
    requires n < |events| && events[n].TextDelta? && Tracks(events, n, s)
    requires var p := Moved(events[..n]);
      Same(t, if p.reasoningSeen && !p.reasoningEmitted && s.phase == Reasoning then s.(phase := Body) else s)
    ensures var p := Moved(events[..n]);
      && (Permitted(events, n) <==> if p.reasoningSeen && !p.reasoningEmitted then s.phase == Reasoning && s.reasoningDeltas > 0
        else events[n].delta == "" || s.phase != ToolStreaming)
      && (Permitted(events, n) ==> Tracks(events, n + 1, t))
  {
    MovedMeans(events, n);
    MovedNext(events, n);
  }

  lemma ReasoningTracks(events: seq<ModelEvent>, n: nat, s: Checker, t: Checker)
    requires n < |events| && events[n].ReasoningDelta? && Tracks(events, n, s)
    requires t.phase == s.phase && t.toolStreamBytes == s.toolStreamBytes
    requires t.reasoningDeltas > 0 <==> s.reasoningDeltas > 0 || events[n].delta != ""
    ensures Permitted(events, n) <==> events[n].delta == "" || s.phase == Reasoning
    ensures Permitted(events, n) ==> Tracks(events, n + 1, t)
  {
    MovedMeans(events, n);
    MovedNext(events, n);
  }

  lemma OtherSends(events: seq<ModelEvent>, n: nat, max: nat)
    requires n < |events| && !events[n].TextDelta? && !events[n].ReasoningDelta?
    ensures var more := Sends(Moved(events[..n]), events[n], max);
      |more| <= 1 && (more != [] ==> Neutral(more[0]) || more[0].ToolCallStreaming?)
  {
  }

  lemma OtherTracks(events: seq<ModelEvent>, n: nat, s: Checker, t: Checker, max: nat)
    requires n < |events| && !events[n].TextDelta? && !events[n].ReasoningDelta? && Tracks(events, n, s)
    requires var more := Sends(Moved(events[..n]), events[n], max);
      Same(t, if more != [] then Reported(s, more[0]) else s)
    ensures Permitted(events, n) && Tracks(events, n + 1, t)
    ensures var more := Sends(Moved(events[..n]), events[n], max);
      more != [] ==> NoStepBack(s, more[0])
  {
    MovedMeans(events, n);
    MovedNext(events, n);
  }

  lemma RoundStep(events: seq<ModelEvent>, n: nat, sent: seq<Event>, max: nat)
    requires n < |events| && Fine(sent) && Tracks(events, n, State(sent))
    ensures var all := sent + Sends(Moved(events[..n]), events[n], max);
      && (Fine(all) <==> Permitted(events, n))
      && (Fine(all) ==> Tracks(events, n + 1, State(all)))
  {
    var p := Moved(events[..n]);
    var s, t := State(sent), State(sent + Sends(p, events[n], max));
    match events[n] {
      case TextDelta(delta) =>
        AppendAnswer(sent, p.reasoningSeen && !p.reasoningEmitted, delta, max);
        TextTracks(events, n, s, t);
      case ReasoningDelta(delta) =>
        AppendReasonings(sent, Utf8.Chunks(delta, max));
        if Fine(sent + Reasonings(delta, max)) {
          ReasoningTracks(events, n, s, t);
        } else {
          ReasoningTracks(events, n, s, s.(reasoningDeltas := s.reasoningDeltas + 1));
        }
      case _ =>
        OtherSends(events, n, max);
        AppendOther(sent, Sends(p, events[n], max));
        OtherTracks(events, n, s, t, max);
    }
  }

  /** What has been sent when the round has delivered its first `n` events. */
  function SentUpTo(before: seq<Event>, events: seq<ModelEvent>, n: nat, max: nat): seq<Event>
    requires n <= |events|
  {
    before + [ModelStreaming] + Emitted(events[..n], max)
  }

  lemma SentNext(before: seq<Event>, events: seq<ModelEvent>, n: nat, max: nat)
    requires n < |events|
    ensures SentUpTo(before, events, n + 1, max) == SentUpTo(before, events, n, max) + Sends(Moved(events[..n]), events[n], max)
  {
    assert events[..n + 1][..n] == events[..n];
    Assoc(before + [ModelStreaming], Emitted(events[..n], max), Sends(Moved(events[..n]), events[n], max));
  }

  lemma RoundOpens(before: seq<Event>, events: seq<ModelEvent>, max: nat)
    requires Fine(before)
    ensures Fine(SentUpTo(before, events, 0, max)) && Tracks(events, 0, State(SentUpTo(before, events, 0, max)))
  {
    FineSnoc(before, ModelStreaming);
    assert SentUpTo(before, events, 0, max) == before + [ModelStreaming];
  }

  ghost predicate AgreesUpTo(before: seq<Event>, events: seq<ModelEvent>, n: nat, max: nat)
    requires n <= |events|
  {
    var sent := SentUpTo(before, events, n, max);
    (Fine(sent) <==> PermittedUpTo(events, n)) && (Fine(sent) ==> Tracks(events, n, State(sent)))
  }

  lemma RoundGoesOn(before: seq<Event>, events: seq<ModelEvent>, n: nat, max: nat)
    requires n < |events| && AgreesUpTo(before, events, n, max)
    ensures AgreesUpTo(before, events, n + 1, max)
  {
    var sent := SentUpTo(before, events, n, max);
    SentNext(before, events, n, max);
    if Fine(sent) {
      RoundStep(events, n, sent, max);
    } else {
      StaysBroken(sent, Sends(Moved(events[..n]), events[n], max));
    }
  }

  /** After `before`, the round's first `n` events are accepted exactly when
      each of them was permitted. */
  lemma {:induction false} RoundPrefix(before: seq<Event>, events: seq<ModelEvent>, n: nat, max: nat)
    requires n <= |events| && Fine(before)
    ensures AgreesUpTo(before, events, n, max)
  {
    if n == 0 {
      RoundOpens(before, events, max);
    } else {
      var m: nat := n - 1;
      RoundPrefix(before, events, m, max);
      RoundGoesOn(before, events, m, max);
    }
  }

  predicate PermittedUpTo(events: seq<ModelEvent>, n: nat)
    requires n <= |events|
  {
    n == 0 || (PermittedUpTo(events, n - 1) && Permitted(events, n - 1))
  }

  lemma {:induction false} PermittedMeans(events: seq<ModelEvent>, n: nat)
    requires n <= |events|
    ensures PermittedUpTo(events, n) <==> forall k :: 0 <= k < n ==> Permitted(events, k)
  {
    if n > 0 {
      PermittedMeans(events, n - 1);
    }
  }

  /** The exact condition for one round: what it sends is accepted if and only
      if the provider delivered in order. */
  lemma RoundIsAcceptedIff(before: seq<Event>, events: seq<ModelEvent>, max: nat)
    requires Fine(before)
    ensures var sent := before + [ModelStreaming] + Emitted(events, max);
      && (Fine(sent) <==> InOrder(events))
      && (Fine(sent) ==> State(sent).phase in {Reasoning, Body, ToolStreaming})
  {
    assert events[..|events|] == events;
    RoundPrefix(before, events, |events|, max);
    PermittedMeans(events, |events|);
  }

  // ------------------------------------------------------------- a whole run

  /** Events between rounds: tools, approvals, compaction, children. */
  predicate Harmless(e: Event) {
    Neutral(e) || IsTool(e)
  }

  predicate AllHarmless(events: seq<Event>) {
    forall k :: 0 <= k < |events| ==> Harmless(events[k])
  }

  lemma OneStep(s: Checker, e: Event)
    requires (Harmless(e) || IsTerminal(e)) && s.phase != Ended
    ensures !Broke(s, e)
    ensures Harmless(e) ==> Then(s, e).phase != Ended
  {
  }

  lemma AppendOne(sent: seq<Event>, e: Event)
    requires (Harmless(e) || IsTerminal(e)) && State(sent).phase != Ended
    ensures Fine(sent + [e]) <==> Fine(sent)
    ensures Harmless(e) ==> State(sent + [e]).phase != Ended
  {
    FineSnoc(sent, e);
    OneStep(State(sent), e);
  }

  lemma HarmlessNext(sent: seq<Event>, more: seq<Event>, n: nat)
    requires n < |more| && Harmless(more[n]) && State(sent + more[..n]).phase != Ended
    ensures Fine(sent + more[..n + 1]) <==> Fine(sent + more[..n])
    ensures State(sent + more[..n + 1]).phase != Ended
  {
    AppendOne(sent + more[..n], more[n]);
    assert sent + more[..n + 1] == sent + more[..n] + [more[n]];
  }

  lemma {:induction false} HarmlessPrefix(sent: seq<Event>, more: seq<Event>, n: nat)
    requires AllHarmless(more) && State(sent).phase != Ended && n <= |more|
    ensures (Fine(sent + more[..n]) <==> Fine(sent)) && State(sent + more[..n]).phase != Ended
  {
    if n == 0 {
      assert sent + more[..0] == sent;
    } else {
      HarmlessPrefix(sent, more, n - 1);
      HarmlessNext(sent, more, n - 1);
    }
  }

  lemma AppendHarmless(sent: seq<Event>, more: seq<Event>)
    requires AllHarmless(more) && State(sent).phase != Ended
    ensures (Fine(sent + more) <==> Fine(sent)) && State(sent + more).phase != Ended
  {
    HarmlessPrefix(sent, more, |more|);
    assert more[..|more|] == more;
  }

  /** All rounds: what each delivered, and what followed until the next. */
  function Stream(delivered: seq<seq<ModelEvent>>, tails: seq<seq<Event>>, max: nat): seq<Event>
    requires |delivered| == |tails|
  {
    if delivered == [] then []
    else
      var n := |delivered| - 1;
      Stream(delivered[..n], tails[..n], max) + ([ModelStreaming] + Emitted(delivered[n], max) + tails[n])
  }

  predicate AllInOrder(delivered: seq<seq<ModelEvent>>) {
    forall k :: 0 <= k < |delivered| ==> InOrder(delivered[k])
  }

  lemma OneMoreRound(before: seq<Event>, events: seq<ModelEvent>, tail: seq<Event>, max: nat)
    requires AllHarmless(tail)
    ensures var all := before + ([ModelStreaming] + Emitted(events, max) + tail);
      && (Fine(all) <==> Fine(before) && InOrder(events))
      && (Fine(all) ==> State(all).phase != Ended)
  {
    var sent := before + [ModelStreaming] + Emitted(events, max);
    Assoc(before, [ModelStreaming], Emitted(events, max));
    Assoc(before, [ModelStreaming] + Emitted(events, max), tail);
    if Fine(before) {
      RoundIsAcceptedIff(before, events, max);
      if Fine(sent) {
        AppendHarmless(sent, tail);
      } else {
        StaysBroken(sent, tail);
      }
    } else {
      StaysBroken(before, [ModelStreaming] + Emitted(events, max) + tail);
    }
  }

  lemma {:induction false} RoundsAreAcceptedIff(before: seq<Event>, delivered: seq<seq<ModelEvent>>, tails: seq<seq<Event>>, max: nat)
    requires |delivered| == |tails| && AllHarmless(before) && forall k :: 0 <= k < |tails| ==> AllHarmless(tails[k])
    ensures var all := before + Stream(delivered, tails, max);
      && (Fine(all) <==> AllInOrder(delivered))
      && (Fine(all) ==> State(all).phase != Ended)
  {
    if delivered == [] {
      assert before + Stream(delivered, tails, max) == [] + before;
      AppendHarmless([], before);
    } else {
      var n := |delivered| - 1;
      RoundsAreAcceptedIff(before, delivered[..n], tails[..n], max);
      OneMoreRound(before + Stream(delivered[..n], tails[..n], max), delivered[n], tails[n], max);
      Assoc(before, Stream(delivered[..n], tails[..n], max), [ModelStreaming] + Emitted(delivered[n], max) + tails[n]);
      AllInOrderSnoc(delivered);
    }
  }

  lemma AllInOrderSnoc(delivered: seq<seq<ModelEvent>>)
    requires delivered != []
    ensures AllInOrder(delivered) <==> AllInOrder(delivered[..|delivered| - 1]) && InOrder(delivered[|delivered| - 1])
  {
    var n := |delivered| - 1;
    if AllInOrder(delivered[..n]) && InOrder(delivered[n]) {
      forall k | 0 <= k < |delivered| ensures InOrder(delivered[k]) {
        if k < n {
          assert delivered[..n][k] == delivered[k];
        }
      }
    }
    if AllInOrder(delivered) {
      forall k | 0 <= k < n ensures InOrder(delivered[..n][k]) {
        assert delivered[..n][k] == delivered[k];
      }
    }
  }

  lemma AppendLast(sent: seq<Event>, last: seq<Event>)
    requires |last| <= 1 && (last != [] ==> IsTerminal(last[0]))
    requires Fine(sent) ==> State(sent).phase != Ended
    ensures Fine(sent + last) <==> Fine(sent)
  {
    if last == [] {
      assert sent + last == sent;
    } else if Fine(sent) {
      assert last == [last[0]];
      AppendOne(sent, last[0]);
    } else {
      StaysBroken(sent, last);
    }
  }

  /** A run's stream, whether it has ended or not, is accepted if and only if
      every round of it delivered in order. */
  lemma RunIsAcceptedIff(before: seq<Event>, delivered: seq<seq<ModelEvent>>, tails: seq<seq<Event>>, last: seq<Event>, max: nat)
    requires |delivered| == |tails| && AllHarmless(before) && forall k :: 0 <= k < |tails| ==> AllHarmless(tails[k])
    requires |last| <= 1 && (last != [] ==> IsTerminal(last[0]))
    ensures Fine(before + Stream(delivered, tails, max) + last) <==> AllInOrder(delivered)
  {
    var all := before + Stream(delivered, tails, max);
    RoundsAreAcceptedIff(before, delivered, tails, max);
    AppendLast(all, last);
  }

  // -------------------------------------------------------- the promised order

  /** Reasoning, then text, then tool calls; other events in between. */
  predicate Phased(events: seq<ModelEvent>) {
    forall i, j :: 0 <= i < j < |events| ==>
      && !(events[i].TextDelta? && events[j].ReasoningDelta?)
      && !(events[i].ToolCallDelta? && (events[j].ReasoningDelta? || events[j].TextDelta?))
  }

  predicate NoEmptyReasoning(events: seq<ModelEvent>) {
    forall i :: 0 <= i < |events| && events[i].ReasoningDelta? ==> events[i].delta != ""
  }

  lemma {:induction false} PhasedHas(events: seq<ModelEvent>, n: nat, m: nat)
    requires m <= n < |events| && Phased(events) && NoEmptyReasoning(events)
    requires events[n].TextDelta? || events[n].ReasoningDelta?
    ensures !Had(events, m, Calls)
    ensures events[n].ReasoningDelta? ==> !Answered(events, m)
    ensures Had(events, m, Thinks) ==> Had(events, m, ReallyThinks)
  {
    if m > 0 {
      PhasedHas(events, n, m - 1);
    }
  }

  /** The promised order, with no empty reasoning delta, is always accepted;
      reasoning and text may each be absent. */
  lemma PhasedIsInOrder(events: seq<ModelEvent>)
    requires Phased(events) && NoEmptyReasoning(events)
    ensures InOrder(events)
  {
    forall n | 0 <= n < |events| ensures Permitted(events, n) {
      if events[n].TextDelta? || events[n].ReasoningDelta? {
        PhasedHas(events, n, n);
      }
    }
  }

  /** An empty reasoning delta is not sent but still makes the text after it
      send the barrier, which the checker then reports. */
  lemma EmptyReasoningIsRejected(text: string, max: nat)
    ensures var events := [ModelEvent.ReasoningDelta(""), ModelEvent.TextDelta(text)];
      Phased(events) && !InOrder(events) && !Fine([ModelStreaming] + Emitted(events, max))
  {
    var events := [ModelEvent.ReasoningDelta(""), ModelEvent.TextDelta(text)];
    assert events[0] == ModelEvent.ReasoningDelta("") && events[1].TextDelta?;
    assert !Had(events, 0, ReallyThinks) && Had(events, 1, Thinks) && !Answered(events, 0);
    assert !Had(events, 1, ReallyThinks) && !Answered(events, 1);
    assert !Permitted(events, 1);
    RoundIsAcceptedIff([], events, max);
    assert [] + [ModelStreaming] == [ModelStreaming];
  }

  // ------------------------------------------------------- barrier and ending

  predicate IsBarrier(e: Event) { e.ReasoningCompleted? }
  predicate IsReport(e: Event) { e.ToolCallStreaming? }

  function Count(events: seq<Event>, p: Event -> bool): nat {
    if events == [] then 0
    else Count(events[..|events| - 1], p) + (if p(events[|events| - 1]) then 1 else 0)
  }

  lemma {:induction false} CountConcat(a: seq<Event>, b: seq<Event>, p: Event -> bool)
    ensures Count(a + b, p) == Count(a, p) + Count(b, p)
    decreases |b|
  {
    if b == [] {
      assert a + b == a;
    } else {
      assert (a + b)[..|a + b| - 1] == a + b[..|b| - 1];
      CountConcat(a, b[..|b| - 1], p);
    }
  }

  lemma {:induction false} CountNone(events: seq<Event>, p: Event -> bool)
    requires forall k :: 0 <= k < |events| ==> !p(events[k])
    ensures Count(events, p) == 0
  {
    if events != [] {
      CountNone(events[..|events| - 1], p);
    }
  }

  lemma {:induction false} MappedAt(chunks: seq<string>, make: string -> Event, k: nat)
    requires k < |Mapped(chunks, make)|
    ensures |Mapped(chunks, make)| == |chunks| && Mapped(chunks, make)[k] == make(chunks[k])
    decreases |chunks|
  {
    if |chunks| > 1 {
      MappedAt(chunks[1..], make, if k == 0 then 0 else k - 1);
    }
  }

  /** Sent deltas count as nothing but themselves. */
  lemma CountMapped(chunks: seq<string>, make: string -> Event, p: Event -> bool)
    requires forall c :: !p(make(c))
    ensures Count(Mapped(chunks, make), p) == 0
  {
    forall k | 0 <= k < |Mapped(chunks, make)| ensures !p(Mapped(chunks, make)[k]) {
      MappedAt(chunks, make, k);
    }
    CountNone(Mapped(chunks, make), p);
  }

  lemma SendsCount(p: Progress, event: ModelEvent, max: nat)
    ensures Count(Sends(p, event, max), IsBarrier) == if event.TextDelta? && p.reasoningSeen && !p.reasoningEmitted then 1 else 0
    ensures Count(Sends(p, event, max), IsReport)
      == if event.ToolCallDelta? && ReportsProgress(p, event.name, event.arguments) then 1 else 0
  {
    match event {
      case TextDelta(delta) =>
        var chunks, make := Utf8.Chunks(delta, max), TextEvent;
        var barrier := if p.reasoningSeen && !p.reasoningEmitted then [ReasoningCompleted] else [];
        CountMapped(chunks, make, IsBarrier);
        CountMapped(chunks, make, IsReport);
        CountConcat(barrier, Mapped(chunks, make), IsBarrier);
        CountConcat(barrier, Mapped(chunks, make), IsReport);
      case ReasoningDelta(delta) =>
        var chunks, make := Utf8.Chunks(delta, max), ReasoningEvent;
        CountMapped(chunks, make, IsBarrier);
        CountMapped(chunks, make, IsReport);
      case _ =>
        CountNone(Sends(p, event, max), IsBarrier);
    }
  }

  /** A round sends the barrier once if text followed reasoning, else never. */
  lemma {:induction false} OneBarrierPerRound(events: seq<ModelEvent>, max: nat)
    ensures Count(Emitted(events, max), IsBarrier) == if Answered(events, |events|) then 1 else 0
  {
    if events != [] {
      var n := |events| - 1;
      OneBarrierPerRound(events[..n], max);
      AnsweredPrefix(events, n, n);
      MovedMeans(events, n);
      SendsCount(Moved(events[..n]), events[n], max);
      CountConcat(Emitted(events[..n], max), Sends(Moved(events[..n]), events[n], max), IsBarrier);
    }
  }

  lemma {:induction false} AnsweredPrefix(events: seq<ModelEvent>, n: nat, m: nat)
    requires m <= n <= |events|
    ensures Answered(events[..n], m) == Answered(events, m) && Had(events[..n], m, Thinks) == Had(events, m, Thinks)
  {
    if m > 0 {
      AnsweredPrefix(events, n, m - 1);
    }
  }

  // --------------------------------------------------------------- throttling

  lemma {:induction false} BeyondIs(bytes: nat, next: nat)
    ensures var r := Beyond(bytes, next);
      && r > bytes && r >= next && (r == next || r <= bytes + 1024)
      && (bytes >= next ==> r >= next + 1024) && r % 1024 == next % 1024
    decreases bytes - next
  {
    if bytes >= next {
      BeyondIs(bytes, next + 1024);
    }
  }

  /** Argument deltas that came before any argument byte. */
  function Leading(events: seq<ModelEvent>): nat {
    if events == [] then 0
    else
      var n := |events| - 1;
      Leading(events[..n]) + (if events[n].ToolCallDelta? && Moved(events[..n]).toolBytes == 0 then 1 else 0)
  }

  /** Progress reports so far, against the next byte count to report at. */
  predicate Throttled(reports: nat, leading: nat, p: Progress) {
    && p.nextEmit % 1024 == 0 && p.nextEmit <= p.toolBytes + 1024
    && (leading == 0 ==> p.toolBytes == 0 && p.nextEmit == 0 && reports == 0 && p.toolName.None?)
    && (leading > 0 ==> p.nextEmit > 0 && reports + 1 <= leading + (if p.toolName.Some? then 1 else 0) + p.nextEmit / 1024)
  }

  lemma ThrottledStep(reports: nat, leading: nat, p: Progress, name: Option<string>, arguments: string)
    requires Throttled(reports, leading, p)
    ensures Throttled(
      reports + (if ReportsProgress(p, name, arguments) then 1 else 0), leading + (if p.toolBytes == 0 then 1 else 0),
      Moves(p, ModelEvent.ToolCallDelta("", None, name, arguments)))
  {
    BeyondIs(p.toolBytes + Utf8.Bytes(arguments), if p.nextEmit == 0 then 1024 else p.nextEmit);
  }

  lemma ThrottledNext(reports: nat, leading: nat, p: Progress, event: ModelEvent)
    requires Throttled(reports, leading, p)
    ensures Throttled(
      reports + (if event.ToolCallDelta? && ReportsProgress(p, event.name, event.arguments) then 1 else 0),
      leading + (if event.ToolCallDelta? && p.toolBytes == 0 then 1 else 0), Moves(p, event))
  {
    if event.ToolCallDelta? {
      ThrottledStep(reports, leading, p, event.name, event.arguments);
    }
  }

  lemma ReportsNext(events: seq<ModelEvent>, n: nat, max: nat)
    requires |events| == n + 1
    ensures var p := Moved(events[..n]);
      Count(Emitted(events, max), IsReport) == Count(Emitted(events[..n], max), IsReport)
        + (if events[n].ToolCallDelta? && ReportsProgress(p, events[n].name, events[n].arguments) then 1 else 0)
  {
    SendsCount(Moved(events[..n]), events[n], max);
    CountConcat(Emitted(events[..n], max), Sends(Moved(events[..n]), events[n], max), IsReport);
  }

  lemma {:induction false} ReportsAreThrottled(events: seq<ModelEvent>, max: nat)
    ensures Throttled(Count(Emitted(events, max), IsReport), Leading(events), Moved(events))
  {
    if events != [] {
      var n := |events| - 1;
      ReportsAreThrottled(events[..n], max);
      ReportsNext(events, n, max);
      ThrottledNext(Count(Emitted(events[..n], max), IsReport), Leading(events[..n]), Moved(events[..n]), events[n]);
    }
  }

  /** However finely arguments arrive, a round reports about once per KiB. */
  lemma ReportsAreBounded(events: seq<ModelEvent>, max: nat)
    ensures Count(Emitted(events, max), IsReport) <= Leading(events) + 1 + Moved(events).toolBytes / 1024
  {
    ReportsAreThrottled(events, max);
  }

  /** Rounds send no terminal event, so the one a run ends with is the only one. */
  predicate NoTerminal(events: seq<Event>) {
    forall k :: 0 <= k < |events| ==> !IsTerminal(events[k])
  }

  lemma SendsNoTerminal(p: Progress, event: ModelEvent, max: nat)
    ensures NoTerminal(Sends(p, event, max))
  {
    match event {
      case TextDelta(delta) =>
        var make := TextEvent;
        forall k | 0 <= k < |Texts(delta, max)| ensures !IsTerminal(Texts(delta, max)[k]) {
          MappedAt(Utf8.Chunks(delta, max), make, k);
        }
      case ReasoningDelta(delta) =>
        var make := ReasoningEvent;
        forall k | 0 <= k < |Reasonings(delta, max)| ensures !IsTerminal(Reasonings(delta, max)[k]) {
          MappedAt(Utf8.Chunks(delta, max), make, k);
        }
      case _ =>
    }
  }

  lemma {:induction false} EmittedHasNoTerminal(events: seq<ModelEvent>, max: nat)
    ensures NoTerminal(Emitted(events, max))
  {
    if events != [] {
      EmittedHasNoTerminal(events[..|events| - 1], max);
      SendsNoTerminal(Moved(events[..|events| - 1]), events[|events| - 1], max);
    }
  }

  lemma NoTerminalConcat(a: seq<Event>, b: seq<Event>)
    requires NoTerminal(a) && NoTerminal(b)
    ensures NoTerminal(a + b)
  {
  }

  lemma HarmlessIsNotTerminal(events: seq<Event>)
    requires AllHarmless(events)
    ensures NoTerminal(events)
  {
    forall k | 0 <= k < |events| ensures !IsTerminal(events[k]) {
      assert Harmless(events[k]);
    }
  }

  lemma {:induction false} OnlyLastIsTerminal(before: seq<Event>, delivered: seq<seq<ModelEvent>>, tails: seq<seq<Event>>, max: nat)
    requires |delivered| == |tails| && AllHarmless(before) && forall k :: 0 <= k < |tails| ==> AllHarmless(tails[k])
    ensures NoTerminal(before + Stream(delivered, tails, max))
  {
    if delivered != [] {
      var n := |delivered| - 1;
      OnlyLastIsTerminal(before, delivered[..n], tails[..n], max);
      EmittedHasNoTerminal(delivered[n], max);
      NoTerminalConcat([ModelStreaming], Emitted(delivered[n], max));
      HarmlessIsNotTerminal(tails[n]);
      NoTerminalConcat([ModelStreaming] + Emitted(delivered[n], max), tails[n]);
      var round := [ModelStreaming] + Emitted(delivered[n], max) + tails[n];
      NoTerminalConcat(before + Stream(delivered[..n], tails[..n], max), round);
      Assoc(before, Stream(delivered[..n], tails[..n], max), round);
    } else {
      HarmlessIsNotTerminal(before);
      assert before + Stream(delivered, tails, max) == before;
    }
  }
}
