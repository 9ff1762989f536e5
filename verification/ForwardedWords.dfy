/** What consumers see of the words and searches of a model stream. */
module ForwardedWords {
  import opened Wrappers
  import opened Sequences
  import opened Protocol
  import opened Conversation
  import opened StreamCollecting
  import opened Forwarding
  import opened RoundTheorems
  import opened RunLoop
  import opened Compaction
  import Conformance
  import RunTheorems
  import Utf8

  /** The text that events show, joined. */
  function ShownText(events: seq<Event>): string {
    if events == [] then []
    else ShownText(events[..|events| - 1]) + (if events[|events| - 1].TextDelta? then events[|events| - 1].delta else [])
  }

  function ShownReasoning(events: seq<Event>): string {
    if events == [] then []
    else ShownReasoning(events[..|events| - 1]) + (if events[|events| - 1].ReasoningDelta? then events[|events| - 1].delta else [])
  }

  lemma {:induction false} ShownConcat(a: seq<Event>, b: seq<Event>)
    ensures ShownText(a + b) == ShownText(a) + ShownText(b) && ShownReasoning(a + b) == ShownReasoning(a) + ShownReasoning(b)
    decreases |b|
  {
    if b == [] {
      assert a + b == a;
    } else {
      var n := |b| - 1;
      ShownConcat(a, b[..n]);
      assert (a + b)[..|a + b| - 1] == a + b[..n] && (a + b)[|a + b| - 1] == b[n];
      Assoc(ShownText(a), ShownText(b[..n]), if b[n].TextDelta? then b[n].delta else []);
      Assoc(ShownReasoning(a), ShownReasoning(b[..n]), if b[n].ReasoningDelta? then b[n].delta else []);
    }
  }

  lemma ShownOne(e: Event)
    ensures ShownText([e]) == (if e.TextDelta? then e.delta else []) && ShownReasoning([e]) == (if e.ReasoningDelta? then e.delta else [])
  {
    assert [e][..0] == [] && ShownText([]) == [] && ShownReasoning([]) == [];
  }

  predicate Wordless(events: seq<Event>) {
    forall k :: 0 <= k < |events| ==> !events[k].TextDelta? && !events[k].ReasoningDelta?
  }

  lemma {:induction false} WordlessShowsNothing(events: seq<Event>)
    requires Wordless(events)
    ensures ShownText(events) == [] && ShownReasoning(events) == []
  {
    if events != [] {
      WordlessShowsNothing(events[..|events| - 1]);
    }
  }

  lemma {:induction false} TextsShow(chunks: seq<string>)
    ensures ShownText(Mapped(chunks, TextEvent)) == Utf8.Joined(chunks) && ShownReasoning(Mapped(chunks, TextEvent)) == []
  {
    if chunks != [] {
      TextsShow(chunks[1..]);
      ShownConcat([TextEvent(chunks[0])], Mapped(chunks[1..], TextEvent));
      ShownOne(TextEvent(chunks[0]));
    }
  }

  lemma {:induction false} ReasoningsShow(chunks: seq<string>)
    ensures ShownReasoning(Mapped(chunks, ReasoningEvent)) == Utf8.Joined(chunks) && ShownText(Mapped(chunks, ReasoningEvent)) == []
  {
    if chunks != [] {
      ReasoningsShow(chunks[1..]);
      ShownConcat([ReasoningEvent(chunks[0])], Mapped(chunks[1..], ReasoningEvent));
      ShownOne(ReasoningEvent(chunks[0]));
    }
  }

  lemma TextEventsShow(barrier: seq<Event>, delta: string, max: nat)
    requires Wordless(barrier)
    ensures ShownText(barrier + Texts(delta, max)) == delta && ShownReasoning(barrier + Texts(delta, max)) == []
  {
    WordlessShowsNothing(barrier);
    ShownConcat(barrier, Texts(delta, max));
    TextsShow(Utf8.Chunks(delta, max));
    Utf8.ChunksRejoin(delta, max);
  }

  lemma SendsShow(p: Progress, e: ModelEvent, max: nat)
    ensures ShownText(Sends(p, e, max)) == if e.TextDelta? then e.delta else []
    ensures ShownReasoning(Sends(p, e, max)) == if e.ReasoningDelta? then e.delta else []
  {
    match e
    case TextDelta(delta) => TextEventsShow(if p.reasoningSeen && !p.reasoningEmitted then [ReasoningCompleted] else [], delta, max);
    case ReasoningDelta(delta) =>
      ReasoningsShow(Utf8.Chunks(delta, max));
      Utf8.ChunksRejoin(delta, max);
    case _ => WordlessShowsNothing(Sends(p, e, max));
  }

  /** Joined, the text and the reasoning that a round shows are those that were
      delivered, however the deltas were cut and throttled. */
  lemma {:induction false} RoundShowsWords(events: seq<ModelEvent>, max: nat)
    ensures ShownText(Emitted(events, max)) == TextOf(events) && ShownReasoning(Emitted(events, max)) == ReasoningOf(events)
  {
    if events != [] {
      var n := |events| - 1;
      RoundShowsWords(events[..n], max);
      SendsShow(Moved(events[..n]), events[n], max);
      ShownConcat(Emitted(events[..n], max), Sends(Moved(events[..n]), events[n], max));
    }
  }

  // ------------------------------------------------------------------ searches

  function ResultsShown(events: seq<Event>): nat {
    if events == [] then 0 else ResultsShown(events[..|events| - 1]) + (if events[|events| - 1].WebSearchResult? then 1 else 0)
  }

  function BytesShown(events: seq<Event>): nat {
    if events == [] then 0
    else
      var last := events[|events| - 1];
      BytesShown(events[..|events| - 1]) + (if last.WebSearchResult? then ResultBytes(last.title, last.url, last.snippet) else 0)
  }

  lemma {:induction false} ResultsConcat(a: seq<Event>, b: seq<Event>)
    ensures ResultsShown(a + b) == ResultsShown(a) + ResultsShown(b) && BytesShown(a + b) == BytesShown(a) + BytesShown(b)
    decreases |b|
  {
    if b == [] {
      assert a + b == a;
    } else {
      var n := |b| - 1;
      ResultsConcat(a, b[..n]);
      assert (a + b)[..|a + b| - 1] == a + b[..n] && (a + b)[|a + b| - 1] == b[n];
    }
  }

  lemma {:induction false} NoResultsShown(events: seq<Event>)
    requires forall k :: 0 <= k < |events| ==> !events[k].WebSearchResult?
    ensures ResultsShown(events) == 0 && BytesShown(events) == 0
  {
    if events != [] {
      NoResultsShown(events[..|events| - 1]);
    }
  }

  lemma {:induction false} MappedHasNoResults(chunks: seq<string>, make: string -> Event)
    requires forall chunk :: !make(chunk).WebSearchResult?
    ensures forall k :: 0 <= k < |Mapped(chunks, make)| ==> !Mapped(chunks, make)[k].WebSearchResult?
  {
    if chunks != [] {
      MappedHasNoResults(chunks[1..], make);
    }
  }

  lemma ResultShown(e: Event)
    requires e.WebSearchResult?
    ensures ResultsShown([e]) == 1 && BytesShown([e]) == ResultBytes(e.title, e.url, e.snippet)
  {
    assert [e][..0] == [] && ResultsShown([]) == 0 && BytesShown([]) == 0;
  }

  lemma SendsResults(p: Progress, e: ModelEvent, max: nat)
    ensures var q, sent := Moves(p, e), Sends(p, e, max);
      q.searchResults == p.searchResults + ResultsShown(sent) && q.searchBytes == p.searchBytes + BytesShown(sent)
  {
    match e
    case WebSearchResult(title, url, snippet) =>
      if HasRoom(p, ResultBytes(title, url, snippet)) {
        ResultShown(Event.WebSearchResult(title, url, snippet));
      }
    case TextDelta(delta) =>
      MappedHasNoResults(Utf8.Chunks(delta, max), TextEvent);
      NoResultsShown(Sends(p, e, max));
    case ReasoningDelta(delta) =>
      MappedHasNoResults(Utf8.Chunks(delta, max), ReasoningEvent);
      NoResultsShown(Sends(p, e, max));
    case _ => NoResultsShown(Sends(p, e, max));
  }

  predicate WithinRoom(p: Progress) {
    p.searchResults <= 10 && p.searchBytes <= MAX_ITEM_BYTES
  }

  lemma RoomIsKept(p: Progress, e: ModelEvent)
    requires WithinRoom(p)
    ensures WithinRoom(Moves(p, e))
  {
  }

  /** The counters of the closure are what has been shown, within the limits. */
  ghost predicate Tallied(p: Progress, sent: seq<Event>) {
    WithinRoom(p) && p.searchResults == ResultsShown(sent) && p.searchBytes == BytesShown(sent)
  }

  lemma TalliedNext(p: Progress, sent: seq<Event>, e: ModelEvent, max: nat)
    requires Tallied(p, sent)
    ensures Tallied(Moves(p, e), sent + Sends(p, e, max))
  {
    RoomIsKept(p, e);
    SendsResults(p, e, max);
    ResultsConcat(sent, Sends(p, e, max));
  }

  lemma {:induction false} EveryRoundIsTallied(events: seq<ModelEvent>, max: nat)
    ensures Tallied(Moved(events), Emitted(events, max))
  {
    if events != [] {
      var n := |events| - 1;
      EveryRoundIsTallied(events[..n], max);
      TalliedNext(Moved(events[..n]), Emitted(events[..n], max), events[n], max);
    }
  }

  /** A round shows at most ten search results of at most 64 KiB together. */
  lemma SearchesAreBounded(events: seq<ModelEvent>, max: nat)
    ensures ResultsShown(Emitted(events, max)) <= 10 && BytesShown(Emitted(events, max)) <= 64 * 1024
  {
    EveryRoundIsTallied(events, max);
  }

  // --------------------------------------------------------------- a whole run

  function TextOfAll(delivered: seq<seq<ModelEvent>>): string {
    if delivered == [] then [] else TextOfAll(delivered[..|delivered| - 1]) + TextOf(delivered[|delivered| - 1])
  }

  function ReasoningOfAll(delivered: seq<seq<ModelEvent>>): string {
    if delivered == [] then [] else ReasoningOfAll(delivered[..|delivered| - 1]) + ReasoningOf(delivered[|delivered| - 1])
  }

  lemma HarmlessShowsNothing(events: seq<Event>)
    requires AllHarmless(events)
    ensures ShownText(events) == [] && ShownReasoning(events) == []
  {
    forall k | 0 <= k < |events| ensures !events[k].TextDelta? && !events[k].ReasoningDelta? {
      assert Harmless(events[k]);
    }
    WordlessShowsNothing(events);
  }

  lemma PassShows(events: seq<ModelEvent>, tail: seq<Event>, max: nat)
    requires AllHarmless(tail)
    ensures var sent := [ModelStreaming] + Emitted(events, max) + tail;
      ShownText(sent) == TextOf(events) && ShownReasoning(sent) == ReasoningOf(events)
  {
    ShownOne(ModelStreaming);
    RoundShowsWords(events, max);
    HarmlessShowsNothing(tail);
    ShownConcat([ModelStreaming] + Emitted(events, max), tail);
    ShownConcat([ModelStreaming], Emitted(events, max));
  }

  lemma {:induction false} StreamShows(delivered: seq<seq<ModelEvent>>, tails: seq<seq<Event>>, max: nat)
    requires |delivered| == |tails| && forall k :: 0 <= k < |tails| ==> AllHarmless(tails[k])
    ensures ShownText(Stream(delivered, tails, max)) == TextOfAll(delivered)
    ensures ShownReasoning(Stream(delivered, tails, max)) == ReasoningOfAll(delivered)
  {
    if delivered != [] {
      var n := |delivered| - 1;
      StreamShows(delivered[..n], tails[..n], max);
      PassShows(delivered[n], tails[n], max);
      ShownConcat(Stream(delivered[..n], tails[..n], max), [ModelStreaming] + Emitted(delivered[n], max) + tails[n]);
    }
  }

  lemma LastShowsNothing(last: seq<Event>)
    requires |last| <= 1 && (last != [] ==> Conformance.IsTerminal(last[0]))
    ensures ShownText(last) == [] && ShownReasoning(last) == []
  {
    WordlessShowsNothing(last);
  }

  /** Joined, the words that a run shows are those that its rounds delivered. */
  lemma RunShowsWords(runner: Runner, rounds: seq<Round>, items: seq<Item>, first: Option<Outcome>, passes: seq<Pass>)
    requires IsCalibration(runner.settings.calibration) && Traced(runner, rounds, Begun(runner, items, first), passes)
    ensures var sent := AllSent(runner, Preamble(runner, items, first), passes);
      ShownText(sent) == TextOfAll(Deliveries(passes)) && ShownReasoning(sent) == ReasoningOfAll(Deliveries(passes))
  {
    var before, max := Preamble(runner, items, first), MaxEvent(runner.limits);
    RunTheorems.Shape(runner, rounds, items, first, passes);
    StreamShows(Deliveries(passes), Tails(passes), max);
    BetweenShows(before, Stream(Deliveries(passes), Tails(passes), max), Last(passes));
  }

  lemma BetweenShows(before: seq<Event>, stream: seq<Event>, last: seq<Event>)
    requires AllHarmless(before) && |last| <= 1 && (last != [] ==> Conformance.IsTerminal(last[0]))
    ensures ShownText(before + stream + last) == ShownText(stream)
    ensures ShownReasoning(before + stream + last) == ShownReasoning(stream)
  {
    HarmlessShowsNothing(before);
    LastShowsNothing(last);
    ShownConcat(before + stream, last);
    ShownConcat(before, stream);
  }
}
