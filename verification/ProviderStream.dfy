/** What the network provider sends on of the events it has parsed
    (`stream_attempt` in `src/provider/openai.rs`): one redactor for the text, one
    for the reasoning and one for the arguments of each tool call. */
module ProviderStream {
  import opened Wrappers
  import opened Sequences
  import opened StreamCollecting
  import opened Forwarding
  import opened RoundTheorems
  import opened Secrets
  import opened StreamRedaction
  import opened RedactionTheorems
  import JsonRedaction
  import Protocol
  import CanonicalJson

  // ------------------------------------------------------------ specification

  /** A tool call's entry, found by its unredacted slot. */
  datatype Slot = Slot(key: string, id: Option<string>, pending: Text)

  /** What the redactors withhold; the slots in the order of their keys. */
  datatype Held = Held(reasoning: Text, text: Text, slots: seq<Slot>)

  /** `fits` says whether the buffers of the slots stay within their limit when
      a delta for a slot with this id arrives. */
  datatype Filter = Filter(patterns: seq<Text>, fits: (seq<Slot>, string, Option<string>) -> bool)
  {
    predicate Valid() {
      Proper(patterns)
    }

    function Marker(): Text {
      RedactionMarker(patterns)
    }

    function Clean(s: string): string
      requires Valid()
    {
      Redact(patterns, Marker(), s)
    }

    function CleanOption(s: Option<string>): Option<string>
      requires Valid()
    {
      if s.Some? then Some(Clean(s.value)) else None
    }

    function CleanJson(v: CanonicalJson.Json): CanonicalJson.Json
      requires Valid()
    {
      JsonRedaction.RedactJson(patterns, Marker(), v)
    }

    function CleanCall(call: Protocol.ToolCall): Protocol.ToolCall
      requires Valid()
    {
      Protocol.ToolCall(Clean(call.id), Clean(call.name), CleanJson(call.arguments))
    }

    function Push(pending: Text, delta: Text): StreamRedaction.Step
      requires Valid()
    {
      Pushed(patterns, Marker(), pending, delta)
    }

    function Mask(pending: Text): Text {
      Masked(Marker(), pending).output
    }
  }

  /** Reasoning and text to send; an empty one is not sent. */
  function Words(reasoning: Text, text: Text): seq<ModelEvent> {
    (if reasoning == [] then [] else [ReasoningDelta(reasoning)]) + (if text == [] then [] else [TextDelta(text)])
  }

  function Find(slots: seq<Slot>, key: string): Option<Slot> {
    if slots == [] then None else if slots[0].key == key then Some(slots[0]) else Find(slots[1..], key)
  }

  function Put(slots: seq<Slot>, slot: Slot): (r: seq<Slot>)
    ensures r != []
  {
    if slots == [] then [slot]
    else if slots[0].key == slot.key then [slot] + slots[1..]
    else if CanonicalJson.Less(slot.key, slots[0].key) then [slot] + slots
    else [slots[0]] + Put(slots[1..], slot)
  }

  /** The first entry that bears the call id. */
  function ById(slots: seq<Slot>, id: string): Option<Slot> {
    if slots == [] then None else if slots[0].id == Some(id) then Some(slots[0]) else ById(slots[1..], id)
  }

  function Tail(f: Filter, slot: Slot): seq<ModelEvent>
    requires f.Valid()
  {
    if slot.pending == [] then [] else [ToolCallDelta(f.Clean(slot.key), None, None, slot.pending)]
  }

  function Tails(f: Filter, slots: seq<Slot>): seq<ModelEvent>
    requires f.Valid()
  {
    if slots == [] then [] else Tails(f, slots[..|slots| - 1]) + Tail(f, slots[|slots| - 1])
  }

  function Emptied(slots: seq<Slot>): seq<Slot> {
    if slots == [] then [] else Emptied(slots[..|slots| - 1]) + [slots[|slots| - 1].(pending := [])]
  }

  /** What is sent for one parsed event, words first, and what is withheld then;
      `fine` unless the buffers of the slots are full. */
  datatype Handled = Handled(reasoning: Text, text: Text, rest: seq<ModelEvent>, held: Held, fine: bool := true)

  function Entry(slots: seq<Slot>, key: string, id: Option<string>): Slot {
    var found := Find(slots, key);
    var entry := if found.Some? then found.value else Slot(key, None, []);
    if id.Some? then entry.(id := id) else entry
  }

  function HandleDelta(f: Filter, h: Held, key: string, id: Option<string>, name: Option<string>, arguments: string): Handled
    requires f.Valid()
  {
    if !f.fits(h.slots, key, id) then Handled(f.Mask(h.reasoning), f.Mask(h.text), [], Held([], [], h.slots), false)
    else
      var entry := Entry(h.slots, key, id);
      var step := f.Push(entry.pending, arguments);
      Handled(f.Mask(h.reasoning), f.Mask(h.text),
              [ToolCallDelta(f.Clean(key), f.CleanOption(id), f.CleanOption(name), step.output)],
              Held([], [], Put(h.slots, entry.(pending := step.pending))))
  }

  function HandleComplete(f: Filter, h: Held, call: Protocol.ToolCall): Handled
    requires f.Valid()
  {
    var found := ById(h.slots, call.id);
    Handled(f.Mask(h.reasoning), f.Mask(h.text),
            (if found.Some? then Tail(f, found.value) else []) + [ToolCallComplete(f.CleanCall(call))],
            Held([], [], if found.Some? then Put(h.slots, found.value.(pending := [])) else h.slots))
  }

  /** Events without words or tool calls. */
  function Cleaned(f: Filter, e: ModelEvent): ModelEvent
    requires f.Valid()
  {
    match e
    case ProviderItem(item) => ProviderItem(f.CleanJson(item))
    case ResponseId(id) => ResponseId(f.Clean(id))
    case WebSearchStarted(query) => ModelEvent.WebSearchStarted(f.Clean(query))
    case WebSearchResult(title, url, snippet) => ModelEvent.WebSearchResult(f.Clean(title), f.Clean(url), f.Clean(snippet))
    case _ => e
  }

  function Handle(f: Filter, h: Held, e: ModelEvent): Handled
    requires f.Valid()
  {
    match e
    case ReasoningDelta(delta) =>
      var step := f.Push(h.reasoning, delta);
      Handled(step.output, [], [], h.(reasoning := step.pending))
    case TextDelta(delta) =>
      var step := f.Push(h.text, delta);
      Handled(f.Mask(h.reasoning), step.output, [], h.(reasoning := [], text := step.pending))
    case ToolCallDelta(slot, id, name, arguments) => HandleDelta(f, h, slot, id, name, arguments)
    case ToolCallComplete(call) => HandleComplete(f, h, call)
    case Done => Handled(h.reasoning, h.text, Tails(f, h.slots) + [ModelEvent.Done], Held([], [], Emptied(h.slots)))
    case _ => Handled([], [], [Cleaned(f, e)], h)
  }

  datatype State = Going | Stopped | Failed

  /** What has been sent, what is withheld, and whether the stream goes on. */
  datatype Flow = Flow(sent: seq<ModelEvent>, held: Held, state: State)

  const START := Flow([], Held([], [], []), Going)

  function Next(f: Filter, flow: Flow, e: ModelEvent): Flow
    requires f.Valid()
  {
    if flow.state != Going then flow
    else
      var r := Handle(f, flow.held, e);
      Flow(flow.sent + Words(r.reasoning, r.text) + r.rest, r.held,
           if !r.fine then Failed else if e.Done? then Stopped else Going)
  }

  function Through(f: Filter, parsed: seq<ModelEvent>): Flow
    requires f.Valid()
  {
    if parsed == [] then START else Next(f, Through(f, parsed[..|parsed| - 1]), parsed[|parsed| - 1])
  }

  /** How the body ends after the parsed events: with `[DONE]`, without, or in an
      error of the connection, the decoder or the parser. */
  datatype Ending = Marked | Closed | Broken

  predicate Fails(state: State, ending: Ending) {
    state == Failed || (state == Going && ending == Broken)
  }

  /** What follows the last words. */
  function Last(f: Filter, slots: seq<Slot>, state: State, ending: Ending, chat: bool): seq<ModelEvent>
    requires f.Valid()
  {
    Tails(f, slots) + (if (state == Going && ending == Closed) || chat then [ModelEvent.Done] else [])
  }

  /** All that is sent; a failed stream drops what was withheld. */
  function Sent(f: Filter, parsed: seq<ModelEvent>, ending: Ending, chat: bool): seq<ModelEvent>
    requires f.Valid()
  {
    var flow := Through(f, parsed);
    if Fails(flow.state, ending) then flow.sent
    else flow.sent + Words(flow.held.reasoning, flow.held.text) + Last(f, flow.held.slots, flow.state, ending, chat)
  }

  // ----------------------------------------------------------- implementation

  /** A tool call delta: words that are withheld are masked before it is sent. */
  method RedactDelta(f: Filter, reasoning: StreamRedactor, text: StreamRedactor, slots: seq<Slot>,
                     slot: string, id: Option<string>, name: Option<string>, arguments: string)
    returns (more: seq<ModelEvent>, after: seq<Slot>, fine: bool)
    requires f.Valid() && reasoning != text && reasoning.marker == text.marker == f.Marker()
    modifies reasoning`pending, text`pending
    ensures var r := HandleDelta(f, Held(old(reasoning.pending), old(text.pending), slots), slot, id, name, arguments);
      && more == Words(r.reasoning, r.text) + r.rest && fine == r.fine
      && Held(reasoning.pending, text.pending, after) == r.held
  {
    var tail := reasoning.MaskPending();
    var pending := text.MaskPending();
    var words := Words(tail, pending);
    if !f.fits(slots, slot, id) {
      assert words + [] == words;
      return words, slots, false;
    }
    var entry := Entry(slots, slot, id);
    var redactor := new StreamRedactor(f.patterns);
    redactor.pending := entry.pending;
    var pushed := redactor.Push(arguments);
    after, fine := Put(slots, entry.(pending := redactor.pending)), true;
    more := words + [ToolCallDelta(f.Clean(slot), f.CleanOption(id), f.CleanOption(name), pushed)];
  }

  /** A complete tool call: what its arguments withheld is sent before it. */
  method RedactComplete(f: Filter, reasoning: StreamRedactor, text: StreamRedactor, slots: seq<Slot>, call: Protocol.ToolCall)
    returns (more: seq<ModelEvent>, after: seq<Slot>)
    requires f.Valid() && reasoning != text && reasoning.marker == text.marker == f.Marker()
    modifies reasoning`pending, text`pending
    ensures var r := HandleComplete(f, Held(old(reasoning.pending), old(text.pending), slots), call);
      && more == Words(r.reasoning, r.text) + r.rest && Held(reasoning.pending, text.pending, after) == r.held
  {
    var tail := reasoning.MaskPending();
    var pending := text.MaskPending();
    var found := ById(slots, call.id);
    var finished: seq<ModelEvent> := [];
    after := slots;
    if found.Some? {
      finished := Tail(f, found.value);
      after := Put(slots, found.value.(pending := []));
    }
    more := Words(tail, pending) + (finished + [ToolCallComplete(f.CleanCall(call))]);
  }

  /** One parsed event. */
  method RedactEvent(f: Filter, reasoning: StreamRedactor, text: StreamRedactor, slots: seq<Slot>, e: ModelEvent)
    returns (more: seq<ModelEvent>, after: seq<Slot>, fine: bool)
    requires f.Valid() && reasoning != text && reasoning.patterns == text.patterns == f.patterns
    requires reasoning.marker == text.marker == f.Marker()
    modifies reasoning`pending, text`pending
    ensures var r := Handle(f, Held(old(reasoning.pending), old(text.pending), slots), e);
      && more == Words(r.reasoning, r.text) + r.rest && fine == r.fine
      && Held(reasoning.pending, text.pending, after) == r.held
  {
    after, fine := slots, true;
    match e {
      case TextDelta(delta) =>
        var tail := reasoning.MaskPending();
        var pushed := text.Push(delta);
        more := Words(tail, pushed);
        assert more + [] == more;
      case ReasoningDelta(delta) =>
        var pushed := reasoning.Push(delta);
        more := Words(pushed, []);
        assert more + [] == more;
      case ToolCallDelta(slot, id, name, arguments) =>
        more, after, fine := RedactDelta(f, reasoning, text, slots, slot, id, name, arguments);
      case ToolCallComplete(call) =>
        more, after := RedactComplete(f, reasoning, text, slots, call);
      case Done =>
        var tail := reasoning.Finish();
        var pending := text.Finish();
        after := Emptied(slots);
        more := Words(tail, pending) + (Tails(f, slots) + [ModelEvent.Done]);
      case _ =>
        more := [Cleaned(f, e)];
        assert Words([], []) + more == more;
    }
  }

  /** The loop over the parsed events, and what follows it. */
  method StreamAttempt(f: Filter, parsed: seq<ModelEvent>, ending: Ending, chat: bool)
    returns (sent: seq<ModelEvent>, failed: bool)
    requires f.Valid()
    ensures sent == Sent(f, parsed, ending, chat)
    ensures failed <==> Fails(Through(f, parsed).state, ending)
  {
    var reasoning := new StreamRedactor(f.patterns);
    var text := new StreamRedactor(f.patterns);
    var slots: seq<Slot> := [];
    var state := Going;
    sent := [];
    var n := 0;
    assert parsed[..0] == [];
    while n < |parsed| && state == Going
      invariant n <= |parsed|
      invariant Through(f, parsed[..n]) == Flow(sent, Held(reasoning.pending, text.pending, slots), state)
    {
      assert parsed[..n + 1][..n] == parsed[..n];
      var more, after, fine := RedactEvent(f, reasoning, text, slots, parsed[n]);
      Appended(sent, more, Handle(f, Through(f, parsed[..n]).held, parsed[n]));
      state := if !fine then Failed else if parsed[n].Done? then Stopped else Going;
      sent, slots, n := sent + more, after, n + 1;
    }
    StopsThere(f, parsed, n);
    if Fails(state, ending) {
      return sent, true;
    }
    var tail := reasoning.Finish();
    var pending := text.Finish();
    sent := sent + Words(tail, pending) + Last(f, slots, state, ending, chat);
    failed := false;
  }

  lemma Appended(sent: seq<ModelEvent>, more: seq<ModelEvent>, r: Handled)
    requires more == Words(r.reasoning, r.text) + r.rest
    ensures sent + more == sent + Words(r.reasoning, r.text) + r.rest
  {
    Assoc(sent, Words(r.reasoning, r.text), r.rest);
  }

  /** Events after the end of the stream change nothing. */
  lemma {:induction false} StopsThere(f: Filter, parsed: seq<ModelEvent>, n: nat)
    requires f.Valid() && n <= |parsed| && (n < |parsed| ==> Through(f, parsed[..n]).state != Going)
    ensures Through(f, parsed) == Through(f, parsed[..n])
    decreases |parsed|
  {
    if n < |parsed| {
      var shorter := parsed[..|parsed| - 1];
      assert shorter[..n] == parsed[..n];
      StopsThere(f, shorter, n);
    } else {
      assert parsed[..n] == parsed;
    }
  }

  // --------------------------------------------------------- order of phases

  function Rank(e: ModelEvent): nat {
    if e.TextDelta? then 1 else if e.ToolCallDelta? then 2 else 0
  }

  /** How far a stream has come: reasoning, text, tool calls. */
  function Level(events: seq<ModelEvent>): (r: nat)
    ensures r <= 2
  {
    if events == [] then 0
    else
      var before, last := Level(events[..|events| - 1]), Rank(events[|events| - 1]);
      if before < last then last else before
  }

  predicate MayFollow(level: nat, e: ModelEvent) {
    (e.ReasoningDelta? ==> level == 0) && (e.TextDelta? ==> level <= 1)
  }

  lemma {:induction false} LevelMeans(events: seq<ModelEvent>)
    ensures Level(events) == 2 <==> exists i :: 0 <= i < |events| && events[i].ToolCallDelta?
    ensures Level(events) == 0 <==> forall i :: 0 <= i < |events| ==> !events[i].ToolCallDelta? && !events[i].TextDelta?
  {
    if events != [] {
      var n := |events| - 1;
      LevelMeans(events[..n]);
      assert forall i :: 0 <= i < n ==> events[..n][i] == events[i];
    }
  }

  /** `e` can come after `d`. */
  predicate InSequence(d: ModelEvent, e: ModelEvent) {
    && !(d.TextDelta? && e.ReasoningDelta?)
    && !(d.ToolCallDelta? && (e.ReasoningDelta? || e.TextDelta?))
  }

  ghost predicate AllBefore(events: seq<ModelEvent>, e: ModelEvent) {
    forall i :: 0 <= i < |events| ==> InSequence(events[i], e)
  }

  lemma MayFollowMeans(events: seq<ModelEvent>, e: ModelEvent)
    ensures AllBefore(events, e) <==> MayFollow(Level(events), e)
  {
    LevelMeans(events);
    if AllBefore(events, e) {
      assert forall i :: 0 <= i < |events| ==> InSequence(events[i], e);
    }
  }

  lemma PhasedMeans(events: seq<ModelEvent>, e: ModelEvent)
    ensures Phased(events + [e]) <==> Phased(events) && AllBefore(events, e)
  {
    var all, n := events + [e], |events|;
    assert all[n] == e && forall i :: 0 <= i < n ==> all[i] == events[i];
    if Phased(events) && AllBefore(events, e) {
      forall i, j | 0 <= i < j < |all| ensures InSequence(all[i], all[j]) {
        assert j == n ==> InSequence(events[i], e);
      }
    }
    if Phased(all) {
      forall i | 0 <= i < n ensures InSequence(events[i], e) {
        assert InSequence(all[i], all[n]);
      }
      forall i, j | 0 <= i < j < n ensures InSequence(events[i], events[j]) {
        assert InSequence(all[i], all[j]);
      }
    }
  }

  lemma PhasedSnoc(events: seq<ModelEvent>, e: ModelEvent)
    ensures Phased(events + [e]) <==> Phased(events) && MayFollow(Level(events), e)
    ensures Level(events + [e]) == if Level(events) < Rank(e) then Rank(e) else Level(events)
  {
    PhasedMeans(events, e);
    MayFollowMeans(events, e);
    assert (events + [e])[..|events|] == events;
  }

  /** In order, and without an empty reasoning or text. */
  ghost predicate Tidy(events: seq<ModelEvent>) {
    Phased(events) && NoEmptyReasoning(events)
  }

  /** No words, and tool call deltas only if `calls`. */
  predicate Wordless(events: seq<ModelEvent>, calls: bool := true) {
    forall i :: 0 <= i < |events| ==>
      !events[i].TextDelta? && !events[i].ReasoningDelta? && (calls || !events[i].ToolCallDelta?)
  }

  lemma TidySnoc(events: seq<ModelEvent>, e: ModelEvent)
    requires Tidy(events) && MayFollow(Level(events), e) && (e.ReasoningDelta? ==> e.delta != [])
    ensures Tidy(events + [e])
    ensures Level(events + [e]) == if Level(events) < Rank(e) then Rank(e) else Level(events)
  {
    PhasedSnoc(events, e);
  }

  lemma {:induction false} TidyRest(events: seq<ModelEvent>, rest: seq<ModelEvent>, calls: bool)
    requires Tidy(events) && Wordless(rest, calls)
    ensures Tidy(events + rest)
    ensures Level(events) <= Level(events + rest) <= if calls then 2 else Level(events)
    decreases |rest|
  {
    if rest == [] {
      assert events + rest == events;
    } else {
      var n := |rest| - 1;
      TidyRest(events, rest[..n], calls);
      TidySnoc(events + rest[..n], rest[n]);
      assert events + rest[..n] + [rest[n]] == events + rest;
    }
  }

  lemma TidyWords(events: seq<ModelEvent>, reasoning: Text, text: Text)
    requires Tidy(events) && (reasoning != [] ==> Level(events) == 0) && (text != [] ==> Level(events) <= 1)
    ensures Tidy(events + Words(reasoning, text))
    ensures Level(events) <= Level(events + Words(reasoning, text)) <= if text != [] && Level(events) == 0 then 1 else Level(events)
  {
    var first := if reasoning == [] then [] else [ReasoningDelta(reasoning)];
    assert events + [] == events;
    if reasoning != [] {
      TidySnoc(events, ReasoningDelta(reasoning));
    }
    if text != [] {
      TidySnoc(events + first, TextDelta(text));
      Assoc(events, first, [TextDelta(text)]);
    } else {
      assert first + [] == first;
    }
  }

  /** What the loop keeps while the parsed events come in order: it has come no
      further than they have, and withholds words only where they still fit. */
  ghost predicate Orderly(parsed: seq<ModelEvent>, flow: Flow) {
    && Tidy(flow.sent) && Level(flow.sent) <= Level(parsed)
    && (flow.held.reasoning != [] ==> flow.state == Going && Level(parsed) == 0)
    && (flow.held.text != [] ==> flow.state == Going && Level(parsed) == 1)
    && (flow.held.slots != [] ==> Level(parsed) == 2)
  }

  lemma {:induction false} TailsAreWordless(f: Filter, slots: seq<Slot>)
    requires f.Valid()
    ensures Wordless(Tails(f, slots), slots != []) && (slots == [] <==> Emptied(slots) == [])
  {
    if slots != [] {
      TailsAreWordless(f, slots[..|slots| - 1]);
    }
  }

  lemma WordlessConcat(a: seq<ModelEvent>, b: seq<ModelEvent>, calls: bool)
    requires Wordless(a, calls) && Wordless(b, calls)
    ensures Wordless(a + b, calls)
  {
  }

  lemma LastIsWordless(f: Filter, slots: seq<Slot>, state: State, ending: Ending, chat: bool)
    requires f.Valid()
    ensures Wordless(Last(f, slots, state, ending, chat), slots != [])
  {
    TailsAreWordless(f, slots);
    WordlessConcat(Tails(f, slots), [ModelEvent.Done], slots != []);
    assert Tails(f, slots) + [] == Tails(f, slots);
  }

  /** The rest of what is sent for an event is wordless, and holds a tool call
      delta only if one was parsed. */
  lemma RestIsWordless(f: Filter, h: Held, e: ModelEvent)
    requires f.Valid()
    ensures var r := Handle(f, h, e);
      && Wordless(r.rest, e.ToolCallDelta? || h.slots != [])
      && (r.held.slots != [] ==> e.ToolCallDelta? || h.slots != [])
  {
    match e
    case Done =>
      TailsAreWordless(f, h.slots);
      WordlessConcat(Tails(f, h.slots), [ModelEvent.Done], h.slots != []);
    case ToolCallComplete(call) =>
      var found := ById(h.slots, call.id);
      var tail := if found.Some? then Tail(f, found.value) else [];
      WordlessConcat(tail, [ToolCallComplete(f.CleanCall(call))], h.slots != []);
    case _ =>
  }

  /** Where the words sent for an event come from, and what is withheld then. */
  lemma WordsComeFrom(f: Filter, h: Held, e: ModelEvent)
    requires f.Valid()
    ensures var r := Handle(f, h, e);
      && (r.reasoning != [] ==> e.ReasoningDelta? || h.reasoning != [])
      && (r.text != [] ==> e.TextDelta? || h.text != [])
      && (r.held.reasoning != [] ==> e.ReasoningDelta? || (h.reasoning != [] && Rank(e) == 0))
      && (r.held.text != [] ==> e.TextDelta? || (h.text != [] && Rank(e) < 2))
      && (!r.fine || e.Done? ==> r.held.reasoning == [] && r.held.text == [])
  {
  }

  lemma NextIsOrderly(f: Filter, parsed: seq<ModelEvent>, e: ModelEvent, flow: Flow)
    requires f.Valid() && Phased(parsed + [e]) && Orderly(parsed, flow)
    ensures Orderly(parsed + [e], Next(f, flow, e))
  {
    PhasedSnoc(parsed, e);
    if flow.state == Going {
      var r := Handle(f, flow.held, e);
      RestIsWordless(f, flow.held, e);
      WordsComeFrom(f, flow.held, e);
      TidyWords(flow.sent, r.reasoning, r.text);
      TidyRest(flow.sent + Words(r.reasoning, r.text), r.rest, e.ToolCallDelta? || flow.held.slots != []);
    }
  }

  lemma {:induction false} ThroughIsOrderly(f: Filter, parsed: seq<ModelEvent>)
    requires f.Valid() && Phased(parsed)
    ensures Orderly(parsed, Through(f, parsed))
  {
    if parsed != [] {
      var n := |parsed| - 1;
      assert parsed[..n] + [parsed[n]] == parsed;
      PhasedSnoc(parsed[..n], parsed[n]);
      ThroughIsOrderly(f, parsed[..n]);
      NextIsOrderly(f, parsed[..n], parsed[n], Through(f, parsed[..n]));
    }
  }

  /** Redaction keeps the order of phases: withheld reasoning and text are sent
      before whatever follows them, and nothing empty is sent. */
  lemma SentIsTidy(f: Filter, parsed: seq<ModelEvent>, ending: Ending, chat: bool)
    requires f.Valid() && Phased(parsed)
    ensures Phased(Sent(f, parsed, ending, chat)) && NoEmptyReasoning(Sent(f, parsed, ending, chat))
  {
    var flow := Through(f, parsed);
    ThroughIsOrderly(f, parsed);
    TidyWords(flow.sent, flow.held.reasoning, flow.held.text);
    LastIsWordless(f, flow.held.slots, flow.state, ending, chat);
    TidyRest(flow.sent + Words(flow.held.reasoning, flow.held.text), Last(f, flow.held.slots, flow.state, ending, chat), flow.held.slots != []);
  }

  // ------------------------------------------------------------ clean content

  lemma {:induction false} WordsOfConcat(a: seq<ModelEvent>, b: seq<ModelEvent>)
    ensures TextOf(a + b) == TextOf(a) + TextOf(b) && ReasoningOf(a + b) == ReasoningOf(a) + ReasoningOf(b)
    decreases |b|
  {
    if b == [] {
      assert a + b == a;
    } else {
      var n := |b| - 1;
      WordsOfConcat(a, b[..n]);
      assert (a + b)[..|a + b| - 1] == a + b[..n] && (a + b)[|a + b| - 1] == b[n];
      Assoc(TextOf(a), TextOf(b[..n]), if b[n].TextDelta? then b[n].delta else []);
      Assoc(ReasoningOf(a), ReasoningOf(b[..n]), if b[n].ReasoningDelta? then b[n].delta else []);
    }
  }

  lemma {:induction false} WordlessHasNone(events: seq<ModelEvent>)
    requires Wordless(events)
    ensures TextOf(events) == [] && ReasoningOf(events) == []
  {
    if events != [] {
      WordlessHasNone(events[..|events| - 1]);
    }
  }

  lemma WordsOfWords(reasoning: Text, text: Text)
    ensures TextOf(Words(reasoning, text)) == text && ReasoningOf(Words(reasoning, text)) == reasoning
  {
    WordsOfOne(ReasoningDelta(reasoning));
    WordsOfOne(TextDelta(text));
    if reasoning != [] && text != [] {
      WordsOfConcat([ReasoningDelta(reasoning)], [TextDelta(text)]);
    }
    var first := if reasoning == [] then [] else [ReasoningDelta(reasoning)];
    assert first + [] == first && [] + [TextDelta(text)] == [TextDelta(text)];
  }

  lemma WordsOfOne(e: ModelEvent)
    ensures TextOf([e]) == (if e.TextDelta? then e.delta else []) && ReasoningOf([e]) == (if e.ReasoningDelta? then e.delta else [])
  {
    assert [e][..0] == [];
    assert TextOf([]) == [] && ReasoningOf([]) == [];
  }

  /** The words of what has been sent grow by the words sent. */
  lemma WordsGrow(sent: seq<ModelEvent>, reasoning: Text, text: Text, rest: seq<ModelEvent>)
    requires Wordless(rest)
    ensures var all := sent + Words(reasoning, text) + rest;
      TextOf(all) == TextOf(sent) + text && ReasoningOf(all) == ReasoningOf(sent) + reasoning
  {
    WordsOfConcat(sent + Words(reasoning, text), rest);
    WordsOfConcat(sent, Words(reasoning, text));
    WordsOfWords(reasoning, text);
    WordlessHasNone(rest);
  }

  /** Nothing shown can become part of a pattern. */
  ghost predicate Shielded(f: Filter, flow: Flow) {
    if flow.state == Stopped then
      && NoMatch(f.patterns, TextOf(flow.sent)) && NoMatch(f.patterns, ReasoningOf(flow.sent))
      && flow.held.text == [] && flow.held.reasoning == []
    else
      && Safe(f.patterns, StreamRedaction.Step(TextOf(flow.sent), flow.held.text))
      && Safe(f.patterns, StreamRedaction.Step(ReasoningOf(flow.sent), flow.held.reasoning))
  }

  /** What an event does to one kind of words: a push, a mask or nothing. */
  ghost predicate Moved(f: Filter, out: Text, pending: Text, more: Text, after: Text)
    requires f.Valid()
  {
    var state := StreamRedaction.Step(out + more, after);
    || (more == [] && after == pending)
    || (exists op :: state == Apply(f.patterns, f.Marker(), StreamRedaction.Step(out, pending), op))
  }

  lemma MovedIsSafe(f: Filter, out: Text, pending: Text, more: Text, after: Text)
    requires f.Valid() && Clear(f.patterns, f.Marker()) && Safe(f.patterns, StreamRedaction.Step(out, pending))
    requires Moved(f, out, pending, more, after)
    ensures Safe(f.patterns, StreamRedaction.Step(out + more, after))
  {
    if more == [] && after == pending {
      assert out + more == out;
    } else {
      var op :| StreamRedaction.Step(out + more, after) == Apply(f.patterns, f.Marker(), StreamRedaction.Step(out, pending), op);
      ApplyIsSafe(f.patterns, f.Marker(), StreamRedaction.Step(out, pending), op);
    }
  }

  lemma HandleMoves(f: Filter, h: Held, e: ModelEvent, text: Text, reasoning: Text)
    requires f.Valid() && !e.Done?
    ensures var r := Handle(f, h, e);
      Moved(f, text, h.text, r.text, r.held.text) && Moved(f, reasoning, h.reasoning, r.reasoning, r.held.reasoning)
  {
    var ps, marker := f.patterns, f.Marker();
    var r := Handle(f, h, e);
    var t, u := StreamRedaction.Step(text, h.text), StreamRedaction.Step(reasoning, h.reasoning);
    match e
    case ReasoningDelta(delta) =>
      assert StreamRedaction.Step(reasoning + r.reasoning, r.held.reasoning) == Apply(ps, marker, u, Chunk(delta));
    case TextDelta(delta) =>
      assert StreamRedaction.Step(text + r.text, r.held.text) == Apply(ps, marker, t, Chunk(delta));
      assert StreamRedaction.Step(reasoning + r.reasoning, r.held.reasoning) == Apply(ps, marker, u, RedactionTheorems.Mask);
    case ToolCallDelta(_, _, _, _) =>
      assert StreamRedaction.Step(text + r.text, r.held.text) == Apply(ps, marker, t, RedactionTheorems.Mask);
      assert StreamRedaction.Step(reasoning + r.reasoning, r.held.reasoning) == Apply(ps, marker, u, RedactionTheorems.Mask);
    case ToolCallComplete(_) =>
      assert StreamRedaction.Step(text + r.text, r.held.text) == Apply(ps, marker, t, RedactionTheorems.Mask);
      assert StreamRedaction.Step(reasoning + r.reasoning, r.held.reasoning) == Apply(ps, marker, u, RedactionTheorems.Mask);
    case _ =>
  }

  /** What is shown after one more event. */
  lemma NextWords(f: Filter, flow: Flow, e: ModelEvent)
    requires f.Valid() && flow.state == Going
    ensures var r, sent := Handle(f, flow.held, e), Next(f, flow, e).sent;
      TextOf(sent) == TextOf(flow.sent) + r.text && ReasoningOf(sent) == ReasoningOf(flow.sent) + r.reasoning
  {
    var r := Handle(f, flow.held, e);
    RestIsWordless(f, flow.held, e);
    WordsGrow(flow.sent, r.reasoning, r.text, r.rest);
  }

  lemma NextIsShielded(f: Filter, flow: Flow, e: ModelEvent)
    requires f.Valid() && Clear(f.patterns, f.Marker()) && Shielded(f, flow)
    ensures Shielded(f, Next(f, flow, e))
  {
    if flow.state == Going {
      var h, r := flow.held, Handle(f, flow.held, e);
      NextWords(f, flow, e);
      if e.Done? {
        SafeIsClean(f.patterns, TextOf(flow.sent), h.text);
        SafeIsClean(f.patterns, ReasoningOf(flow.sent), h.reasoning);
      } else {
        HandleMoves(f, h, e, TextOf(flow.sent), ReasoningOf(flow.sent));
        MovedIsSafe(f, TextOf(flow.sent), h.text, r.text, r.held.text);
        MovedIsSafe(f, ReasoningOf(flow.sent), h.reasoning, r.reasoning, r.held.reasoning);
      }
    }
  }

  lemma {:induction false} ThroughIsShielded(f: Filter, parsed: seq<ModelEvent>)
    requires f.Valid() && Clear(f.patterns, f.Marker())
    ensures Shielded(f, Through(f, parsed))
  {
    if parsed != [] {
      var n := |parsed| - 1;
      ThroughIsShielded(f, parsed[..n]);
      NextIsShielded(f, Through(f, parsed[..n]), parsed[n]);
    }
  }

  lemma SentWords(f: Filter, parsed: seq<ModelEvent>, ending: Ending, chat: bool)
    requires f.Valid() && !Fails(Through(f, parsed).state, ending)
    ensures var flow, sent := Through(f, parsed), Sent(f, parsed, ending, chat);
      && TextOf(sent) == TextOf(flow.sent) + flow.held.text
      && ReasoningOf(sent) == ReasoningOf(flow.sent) + flow.held.reasoning
  {
    var flow := Through(f, parsed);
    LastIsWordless(f, flow.held.slots, flow.state, ending, chat);
    WordsGrow(flow.sent, flow.held.reasoning, flow.held.text, Last(f, flow.held.slots, flow.state, ending, chat));
  }

  lemma ShieldedIsClean(f: Filter, flow: Flow)
    requires f.Valid() && Shielded(f, flow)
    ensures NoMatch(f.patterns, TextOf(flow.sent)) && NoMatch(f.patterns, TextOf(flow.sent) + flow.held.text)
    ensures NoMatch(f.patterns, ReasoningOf(flow.sent)) && NoMatch(f.patterns, ReasoningOf(flow.sent) + flow.held.reasoning)
  {
    if flow.state != Stopped {
      SafeIsClean(f.patterns, TextOf(flow.sent), flow.held.text);
      SafeIsClean(f.patterns, ReasoningOf(flow.sent), flow.held.reasoning);
    } else {
      assert TextOf(flow.sent) + [] == TextOf(flow.sent) && ReasoningOf(flow.sent) + [] == ReasoningOf(flow.sent);
    }
  }

  /** Over all deltas of a stream, joined, neither the text nor the reasoning that
      is sent holds a credential, however the stream ends and whatever order the
      events were parsed in. */
  lemma SentIsClean(f: Filter, parsed: seq<ModelEvent>, ending: Ending, chat: bool)
    requires f.Valid() && Clear(f.patterns, f.Marker())
    ensures NoMatch(f.patterns, TextOf(Sent(f, parsed, ending, chat)))
    ensures NoMatch(f.patterns, ReasoningOf(Sent(f, parsed, ending, chat)))
  {
    ThroughIsShielded(f, parsed);
    ShieldedIsClean(f, Through(f, parsed));
    if !Fails(Through(f, parsed).state, ending) {
      SentWords(f, parsed, ending, chat);
    }
  }

  // ------------------------------------------------- nothing else is changed

  /** `out`, and the batch redaction of what is still to come after `pending`, is
      the batch redaction of everything. */
  ghost predicate Faithful(f: Filter, raw: Text, out: Text, pending: Text)
    requires f.Valid()
  {
    && NoMatch(f.patterns, pending) && (f.patterns == [] ==> pending == [])
    && forall u :: Redact(f.patterns, f.Marker(), raw + u) == out + Redact(f.patterns, f.Marker(), pending + u)
  }

  lemma PushIsFaithful(f: Filter, raw: Text, out: Text, pending: Text, delta: Text)
    requires f.Valid() && SuffixOnly(f.patterns) && Faithful(f, raw, out, pending)
    ensures var step := f.Push(pending, delta);
      Faithful(f, raw + delta, out + step.output, step.pending)
  {
    var ps, marker, step := f.patterns, f.Marker(), f.Push(pending, delta);
    PushLeavesNoMatch(ps, marker, pending, delta);
    forall u ensures Redact(ps, marker, raw + delta + u) == out + step.output + Redact(ps, marker, step.pending + u) {
      PushThenRedact(ps, marker, pending, delta, u);
      Assoc(raw, delta, u);
      Assoc(pending, delta, u);
      Assoc(out, step.output, Redact(ps, marker, step.pending + u));
    }
  }

  lemma FinishIsFaithful(f: Filter, raw: Text, out: Text, pending: Text)
    requires f.Valid() && Faithful(f, raw, out, pending)
    ensures out + pending == Redact(f.patterns, f.Marker(), raw)
  {
    assert raw + [] == raw && pending + [] == pending;
    RedactKeeps(f.patterns, f.Marker(), pending);
  }

  predicate Toolless(events: seq<ModelEvent>) {
    forall i :: 0 <= i < |events| ==> !events[i].ToolCallDelta? && !events[i].ToolCallComplete?
  }

  predicate Endless(events: seq<ModelEvent>) {
    forall i :: 0 <= i < |events| ==> !events[i].Done?
  }

  lemma NextIsFaithful(f: Filter, raw: Text, flow: Flow, e: ModelEvent)
    requires f.Valid() && SuffixOnly(f.patterns) && flow.state == Going && Faithful(f, raw, TextOf(flow.sent), flow.held.text)
    requires !e.ToolCallDelta? && !e.ToolCallComplete? && !e.Done?
    ensures var next := Next(f, flow, e);
      next.state == Going && Faithful(f, raw + (if e.TextDelta? then e.delta else []), TextOf(next.sent), next.held.text)
  {
    NextWords(f, flow, e);
    TextHandled(f, flow.held, e);
    if e.TextDelta? {
      PushIsFaithful(f, raw, TextOf(flow.sent), flow.held.text, e.delta);
    } else {
      assert raw + [] == raw && TextOf(flow.sent) + [] == TextOf(flow.sent);
    }
  }

  lemma TextHandled(f: Filter, h: Held, e: ModelEvent)
    requires f.Valid() && !e.ToolCallDelta? && !e.ToolCallComplete? && !e.Done?
    ensures var r := Handle(f, h, e);
      && r.fine && StreamRedaction.Step(r.text, r.held.text) ==
        if e.TextDelta? then f.Push(h.text, e.delta) else StreamRedaction.Step([], h.text)
  {
  }

  lemma {:induction false} ThroughIsFaithful(f: Filter, parsed: seq<ModelEvent>)
    requires f.Valid() && SuffixOnly(f.patterns) && Toolless(parsed) && Endless(parsed)
    ensures var flow := Through(f, parsed);
      flow.state == Going && Faithful(f, TextOf(parsed), TextOf(flow.sent), flow.held.text)
  {
    if parsed == [] {
      assert forall u: Text :: [] + u == u;
    } else {
      var n := |parsed| - 1;
      ThroughIsFaithful(f, parsed[..n]);
      NextIsFaithful(f, TextOf(parsed[..n]), Through(f, parsed[..n]), parsed[n]);
    }
  }

  /** All text shown, and what would follow it at once, is the redaction. */
  ghost predicate Shows(f: Filter, raw: Text, flow: Flow)
    requires f.Valid()
  {
    flow.state != Failed && TextOf(flow.sent) + flow.held.text == Redact(f.patterns, f.Marker(), raw)
  }

  lemma EndlessShows(f: Filter, parsed: seq<ModelEvent>)
    requires f.Valid() && SuffixOnly(f.patterns) && Toolless(parsed) && Endless(parsed)
    ensures Shows(f, TextOf(parsed), Through(f, parsed)) && Through(f, parsed).state == Going
  {
    ThroughIsFaithful(f, parsed);
    var flow := Through(f, parsed);
    FinishIsFaithful(f, TextOf(parsed), TextOf(flow.sent), flow.held.text);
  }

  lemma DoneShows(f: Filter, raw: Text, flow: Flow)
    requires f.Valid() && Shows(f, raw, flow) && flow.state == Going
    ensures Shows(f, raw, Next(f, flow, ModelEvent.Done))
  {
    NextWords(f, flow, ModelEvent.Done);
    var sent := TextOf(flow.sent) + flow.held.text;
    assert sent + [] == sent;
  }

  /** A stream without tool calls that does not fail shows exactly the batch
      redaction of the text, where streaming can equal batch redaction at all. */
  lemma TextIsRedaction(f: Filter, parsed: seq<ModelEvent>, done: bool, ending: Ending, chat: bool)
    requires f.Valid() && SuffixOnly(f.patterns) && Toolless(parsed) && Endless(parsed) && ending != Broken
    ensures var all := parsed + (if done then [ModelEvent.Done] else []);
      TextOf(Sent(f, all, ending, chat)) == Redact(f.patterns, f.Marker(), TextOf(parsed))
  {
    EndlessShows(f, parsed);
    if done {
      assert (parsed + [ModelEvent.Done])[..|parsed|] == parsed;
      DoneShows(f, TextOf(parsed), Through(f, parsed));
      SentWords(f, parsed + [ModelEvent.Done], ending, chat);
    } else {
      assert parsed + [] == parsed;
      SentWords(f, parsed, ending, chat);
    }
  }
}
