/** What one model round sends to its consumers: the event closure of
    `run_inner` (`src/agent/runner.rs`) and `stream_once` (`src/agent.rs`). */
module Forwarding {
  import opened Wrappers
  import opened Sequences
  import opened Protocol
  import opened Conversation
  import opened StreamCollecting
  import opened PartialCalls
  import CanonicalJson
  import Utf8

  /** The closure's variables, fresh in every round. */
  datatype Progress = Progress(
    reasoningSeen: bool, reasoningEmitted: bool, toolName: Option<string>, toolBytes: nat, nextEmit: nat,
    searchResults: nat, searchBytes: nat)

  const FRESH := Progress(false, false, None, 0, 0, 0, 0)
  const MAX_ITEM_BYTES: nat := 64 * 1024

  // ------------------------------------------------------------ specification

  function Mapped(chunks: seq<string>, make: string -> Event): seq<Event> {
    if chunks == [] then [] else [make(chunks[0])] + Mapped(chunks[1..], make)
  }

  function TextEvent(chunk: string): Event {
    Event.TextDelta(chunk)
  }

  function ReasoningEvent(chunk: string): Event {
    Event.ReasoningDelta(chunk)
  }

  function Texts(delta: string, max: nat): seq<Event> {
    Mapped(Utf8.Chunks(delta, max), TextEvent)
  }

  function Reasonings(delta: string, max: nat): seq<Event> {
    Mapped(Utf8.Chunks(delta, max), ReasoningEvent)
  }

  function ResultBytes(title: string, url: string, snippet: string): nat {
    Utf8.Bytes(title) + Utf8.Bytes(url) + Utf8.Bytes(snippet)
  }

  predicate HasRoom(p: Progress, bytes: nat) {
    p.searchResults < 10 && p.searchBytes + bytes <= MAX_ITEM_BYTES
  }

  /** The next multiple of 1024 above `next` that `bytes` has not reached. */
  function Beyond(bytes: nat, next: nat): nat
    decreases bytes - next
  {
    if bytes >= next then Beyond(bytes, next + 1024) else next
  }

  predicate ReportsProgress(p: Progress, name: Option<string>, arguments: string) {
    p.toolBytes == 0 || (name.Some? && p.toolName.None?) || p.toolBytes + Utf8.Bytes(arguments) >= p.nextEmit
  }

  /** The agent events sent for one model event. */
  function Sends(p: Progress, event: ModelEvent, max: nat): seq<Event> {
    match event
    case WebSearchStarted(query) => [Event.WebSearchStarted(query)]
    case WebSearchResult(title, url, snippet) =>
      if HasRoom(p, ResultBytes(title, url, snippet)) then [Event.WebSearchResult(title, url, snippet)] else []
    case WebSearchCompleted(count) =>
      [Event.WebSearchCompleted(if count == 0 then p.searchResults else if count < 10 then count else 10)]
    case ReasoningDelta(delta) => Reasonings(delta, max)
    case Retrying(reason, delayMs) => [ProviderRetry(reason, delayMs)]
    case TextDelta(delta) =>
      (if p.reasoningSeen && !p.reasoningEmitted then [ReasoningCompleted] else []) + Texts(delta, max)
    case Usage(input, output, total) => [Event.Usage(input, output, total)]
    case ToolCallDelta(_, _, name, arguments) =>
      if ReportsProgress(p, name, arguments)
      then [ToolCallStreaming(if name.Some? then name else p.toolName, p.toolBytes + Utf8.Bytes(arguments))]
      else []
    case _ => []
  }

  function Moves(p: Progress, event: ModelEvent): Progress {
    match event
    case WebSearchResult(title, url, snippet) =>
      var bytes := ResultBytes(title, url, snippet);
      if HasRoom(p, bytes) then p.(searchResults := p.searchResults + 1, searchBytes := p.searchBytes + bytes) else p
    case ReasoningDelta(_) => p.(reasoningSeen := true)
    case TextDelta(_) => p.(reasoningEmitted := p.reasoningEmitted || p.reasoningSeen)
    case ToolCallDelta(_, _, name, arguments) =>
      var bytes := p.toolBytes + Utf8.Bytes(arguments);
      p.(toolName := if name.Some? then name else p.toolName, toolBytes := bytes,
        nextEmit := if ReportsProgress(p, name, arguments)
          then Beyond(bytes, if p.nextEmit == 0 then 1024 else p.nextEmit) else p.nextEmit)
    case _ => p
  }

  /** The conversation items one model event leaves behind. */
  function Keeps(p: Progress, event: ModelEvent): seq<Item> {
    match event
    case WebSearchResult(title, url, snippet) =>
      if HasRoom(p, ResultBytes(title, url, snippet)) then [Context("搜索来源：" + title, url + "\n" + snippet)] else []
    case ProviderItem(item) =>
      if Utf8.Bytes(CanonicalJson.Canonical(item)) <= MAX_ITEM_BYTES then [Item.ProviderItem(item)] else []
    case _ => []
  }

  function Moved(events: seq<ModelEvent>): Progress {
    if events == [] then FRESH else Moves(Moved(events[..|events| - 1]), events[|events| - 1])
  }

  function Emitted(events: seq<ModelEvent>, max: nat): seq<Event> {
    if events == [] then []
    else Emitted(events[..|events| - 1], max) + Sends(Moved(events[..|events| - 1]), events[|events| - 1], max)
  }

  function Collected(events: seq<ModelEvent>): seq<Item> {
    if events == [] then []
    else Collected(events[..|events| - 1]) + Keeps(Moved(events[..|events| - 1]), events[|events| - 1])
  }

  lemma Snoc(events: seq<ModelEvent>, event: ModelEvent, max: nat)
    ensures Moved(events + [event]) == Moves(Moved(events), event)
    ensures Emitted(events + [event], max) == Emitted(events, max) + Sends(Moved(events), event, max)
    ensures Collected(events + [event]) == Collected(events) + Keeps(Moved(events), event)
  {
    assert (events + [event])[..|events|] == events;
  }

  // ------------------------------------------------------------------ the code

  method SendText(delta: string, max: nat, reasoning: bool) returns (sent: seq<Event>)
    requires max > 0
    ensures sent == if reasoning then Reasonings(delta, max) else Texts(delta, max)
  {
    var chunks := Utf8.Chunk(delta, max);
    sent := [];
    var make := if reasoning then ReasoningEvent else TextEvent;
    assert chunks[0..] == chunks;
    for n := 0 to |chunks|
      invariant sent + Mapped(chunks[n..], make) == Mapped(chunks, make)
    {
      assert chunks[n..][0] == chunks[n] && chunks[n..][1..] == chunks[n + 1..];
      Assoc(sent, [make(chunks[n])], Mapped(chunks[n + 1..], make));
      sent := sent + [make(chunks[n])];
    }
    assert sent + [] == sent;
  }

  /** Merges one argument delta into the round's progress report. */
  method Throttle(p: Progress, name: Option<string>, arguments: string) returns (q: Progress, sent: seq<Event>)
    ensures q == Moves(p, ModelEvent.ToolCallDelta("", None, name, arguments))
    ensures sent == Sends(p, ModelEvent.ToolCallDelta("", None, name, arguments), 1)
  {
    var first := p.toolBytes == 0;
    var bytes := p.toolBytes + Utf8.Bytes(arguments);
    var nameFirstKnown := name.Some? && p.toolName.None?;
    q := p.(toolBytes := bytes, toolName := if name.Some? then name else p.toolName);
    sent := [];
    if first || nameFirstKnown || bytes >= q.nextEmit {
      var next := if q.nextEmit == 0 then 1024 else q.nextEmit;
      ghost var start := next;
      while bytes >= next
        invariant Beyond(bytes, next) == Beyond(bytes, start)
        decreases bytes - next
      {
        next := next + 1024;
      }
      q := q.(nextEmit := next);
      sent := [ToolCallStreaming(q.toolName, bytes)];
    }
  }

  /** The closure: handles one event the collector passed on. */
  method Forward(p: Progress, event: ModelEvent, max: nat) returns (q: Progress, sent: seq<Event>, kept: seq<Item>)
    requires max > 0
    ensures q == Moves(p, event) && sent == Sends(p, event, max) && kept == Keeps(p, event)
  {
    q, sent, kept := p, [], [];
    match event {
      case WebSearchStarted(query) =>
        sent := [Event.WebSearchStarted(query)];
      case WebSearchResult(title, url, snippet) =>
        var bytes := ResultBytes(title, url, snippet);
        if p.searchResults < 10 && p.searchBytes + bytes <= MAX_ITEM_BYTES {
          q := p.(searchResults := p.searchResults + 1, searchBytes := p.searchBytes + bytes);
          kept := [Context("搜索来源：" + title, url + "\n" + snippet)];
          sent := [Event.WebSearchResult(title, url, snippet)];
        }
      case WebSearchCompleted(count) =>
        sent := [Event.WebSearchCompleted(if count == 0 then p.searchResults else if count < 10 then count else 10)];
      case ProviderItem(item) =>
        if Utf8.Bytes(CanonicalJson.Canonical(item)) <= MAX_ITEM_BYTES {
          kept := [Item.ProviderItem(item)];
        }
      case ReasoningDelta(delta) =>
        q := p.(reasoningSeen := true);
        sent := SendText(delta, max, true);
      case Retrying(reason, delayMs) =>
        sent := [ProviderRetry(reason, delayMs)];
      case TextDelta(delta) =>
        sent := SendText(delta, max, false);
        if p.reasoningSeen && !p.reasoningEmitted {
          q := p.(reasoningEmitted := true);
          sent := [ReasoningCompleted] + sent;
        }
      case Usage(input, output, total) =>
        sent := [Event.Usage(input, output, total)];
      case ToolCallDelta(_, _, name, arguments) =>
        q, sent := Throttle(p, name, arguments);
      case _ =>
    }
  }

  datatype RoundEnd =
    | Finished
    | Refused(limit: Refusal)
    | HandlerFailed(error: string)
    | ProviderFailed(overflow: bool, error: string)
    | EndedWithoutCompletion

  /** What the provider and the storage do in one round. */
  datatype Script = Script(events: seq<ModelEvent>, failure: Option<(bool, string)>, storageFault: Option<(nat, string)>)

  /** Keeping an item also stores it; reasoning items stay local. */
  predicate Stores(p: Progress, event: ModelEvent) {
    Keeps(p, event) != [] && (event.ProviderItem? ==> !IsReasoningItem(event.item))
  }

  predicate IsReasoningItem(item: CanonicalJson.Json) {
    item.Obj? && CanonicalJson.Field("type", CanonicalJson.Str("reasoning")) in item.fields
  }

  datatype Step = Step(progress: Progress, sent: seq<Event>, kept: seq<Item>)

  function StepOf(p: Progress, event: ModelEvent, max: nat): Step {
    Step(Moves(p, event), Sends(p, event, max), Keeps(p, event))
  }

  /** What the collector holds back or leaves out makes no difference. */
  lemma PassedIsSame(p: Progress, event: ModelEvent, max: nat)
    ensures StepOf(p, event, max) == if PassedOn(event).Some? then StepOf(p, PassedOn(event).value, max) else Step(p, [], [])
  {
  }

  /** What the events add up to for the collector. */
  function TextOf(events: seq<ModelEvent>): string {
    if events == [] then []
    else TextOf(events[..|events| - 1]) + (if events[|events| - 1].TextDelta? then events[|events| - 1].delta else [])
  }

  function ReasoningOf(events: seq<ModelEvent>): string {
    if events == [] then []
    else ReasoningOf(events[..|events| - 1]) + (if events[|events| - 1].ReasoningDelta? then events[|events| - 1].delta else [])
  }

  function CallsOf(events: seq<ModelEvent>): seq<ToolCall> {
    if events == [] then []
    else CallsOf(events[..|events| - 1]) + (if events[|events| - 1].ToolCallComplete? then [events[|events| - 1].call] else [])
  }

  /** The collector holds what `delivered` adds up to, nothing refused. */
  ghost predicate Holds(collector: StreamCollector, delivered: seq<ModelEvent>)
    reads collector
  {
    && collector.Valid() && !collector.refused
    && collector.arrivedText == TextOf(delivered) && collector.arrivedReasoning == ReasoningOf(delivered)
    && collector.completedCalls == CallsOf(delivered) && collector.completedIds == IdsOf(delivered)
    && Joined(delivered, collector.partials)
  }

  lemma AddsUp(events: seq<ModelEvent>, n: nat)
    requires n < |events|
    ensures TextOf(events[..n + 1]) == TextOf(events[..n]) + (if events[n].TextDelta? then events[n].delta else [])
    ensures ReasoningOf(events[..n + 1]) == ReasoningOf(events[..n]) + (if events[n].ReasoningDelta? then events[n].delta else [])
    ensures CallsOf(events[..n + 1]) == CallsOf(events[..n]) + (if events[n].ToolCallComplete? then [events[n].call] else [])
    ensures IdsOf(events[..n + 1]) == IdsOf(events[..n]) + (if events[n].ToolCallComplete? then {events[n].call.id} else {})
    ensures events[..n + 1] == events[..n] + [events[n]]
  {
    assert events[..n + 1][..n] == events[..n];
  }

  /** One event through the collector and, if it passes it on, the closure. */
  method Receive(collector: StreamCollector, p: Progress, events: seq<ModelEvent>, n: nat, max: nat)
    returns (r: Result<Step, Refusal>)
    requires max > 0 && n < |events| && Holds(collector, events[..n])
    modifies collector
    ensures collector.sawDone == (old(collector.sawDone) || (r.Ok? && events[n].Done?))
    ensures r.Ok? ==> r.value == StepOf(p, events[n], max) && Holds(collector, events[..n + 1])
    ensures r.Err? ==> events[n].TextDelta? || events[n].ToolCallDelta? || events[n].ToolCallComplete?
  {
    var event := events[n];
    AddsUp(events, n);
    ghost var partials := collector.partials;
    var passed := collector.OnEvent(event);
    if passed.Err? {
      return Err(passed.error);
    }
    JoinedNext(events[..n], event, partials, collector.partials);
    NothingAdded(collector.arrivedText, collector.arrivedReasoning);
    PassedIsSame(p, event, max);
    if passed.value.None? {
      return Ok(Step(p, [], []));
    }
    var q, sent, kept := Forward(p, passed.value.value, max);
    r := Ok(Step(q, sent, kept));
  }

  lemma NothingAdded(a: string, b: string)
    ensures a + [] == a && b + [] == b
  {
  }

  /** Where a round stands after the events `delivered`. */
  ghost predicate At(delivered: seq<ModelEvent>, p: Progress, items: seq<Item>, sent: seq<Event>, max: nat) {
    p == Moved(delivered) && items == Collected(delivered) && sent == Emitted(delivered, max)
  }

  lemma AtNext(events: seq<ModelEvent>, n: nat, p: Progress, items: seq<Item>, sent: seq<Event>, max: nat)
    requires n < |events| && At(events[..n], p, items, sent, max)
    ensures events[..n] <= events && events[..n + 1] <= events
    ensures At(events[..n + 1], Moves(p, events[n]), items + Keeps(p, events[n]), sent + Sends(p, events[n], max), max)
  {
    Snoc(events[..n], events[n], max);
    assert events[..n + 1] == events[..n] + [events[n]];
  }

  /** How far a round got, and why it ended there. */
  ghost predicate EndsAs(script: Script, delivered: seq<ModelEvent>, end: RoundEnd) {
    var n := |delivered|;
    && delivered <= script.events
    && match end
      case Refused(_) =>
        n < |script.events|
        && (script.events[n].TextDelta? || script.events[n].ToolCallDelta? || script.events[n].ToolCallComplete?)
      case HandlerFailed(error) =>
        n < |script.events| && script.storageFault == Some((n, error)) && Stores(Moved(delivered), script.events[n])
      case ProviderFailed(overflow, error) => script.failure == Some((overflow, error)) && (n < |script.events| ==> Finishes(delivered))
      case EndedWithoutCompletion => script.failure.None? && delivered == script.events && !Finishes(delivered)
      case Finished => script.failure.None? && Finishes(delivered)
  }

  /** The provider marked the end of its answer. */
  predicate Finishes(delivered: seq<ModelEvent>) {
    delivered != [] && delivered[|delivered| - 1].Done?
  }

  /** One turn of the loop: the next event, the item it leaves, what is sent for
      it; a failing storage call stops right after its item. */
  method Advance(script: Script, collector: StreamCollector, n: nat, p: Progress, items: seq<Item>, sent: seq<Event>, max: nat)
    returns (end: Option<RoundEnd>, q: Progress, kept: seq<Item>, out: seq<Event>)
    requires max > 0 && n < |script.events| && Holds(collector, script.events[..n]) && !collector.sawDone
    requires At(script.events[..n], p, items, sent, max)
    modifies collector
    ensures end.None? ==>
      && Holds(collector, script.events[..n + 1]) && At(script.events[..n + 1], q, kept, out, max)
      && (collector.sawDone <==> script.events[n].Done?)
    ensures end.Some? ==>
      && out == sent && EndsAs(script, script.events[..n], end.value) && !end.value.Finished?
      && kept == if end.value.HandlerFailed? then Collected(script.events[..n + 1]) else items
  {
    AtNext(script.events, n, p, items, sent, max);
    var r := Receive(collector, p, script.events, n, max);
    if r.Err? {
      return Some(Refused(r.error)), p, items, sent;
    }
    kept, out := items + r.value.kept, sent;
    if Stores(p, script.events[n]) && script.storageFault.Some? && script.storageFault.value.0 == n {
      return Some(HandlerFailed(script.storageFault.value.1)), p, kept, out;
    }
    end, q, out := None, r.value.progress, sent + r.value.sent;
  }

  lemma FinishesNext(events: seq<ModelEvent>, n: nat)
    requires n < |events|
    ensures Finishes(events[..n + 1]) <==> events[n].Done?
  {
  }

  /** One model round. `delivered` are the events that reached the closure and
      were forwarded. */
  method StreamOnce(script: Script, collector: StreamCollector, maxEventBytes: nat)
    returns (end: RoundEnd, items: seq<Item>, sent: seq<Event>, ghost delivered: seq<ModelEvent>)
    requires Holds(collector, []) && !collector.sawDone
    modifies collector
    ensures EndsAs(script, delivered, end)
    ensures items == Collected(if end.HandlerFailed? then script.events[..|delivered| + 1] else delivered)
    ensures sent == Emitted(delivered, if maxEventBytes > 1 then maxEventBytes else 1)
    ensures end.Finished? ==> Holds(collector, delivered)
  {
    var max := if maxEventBytes > 1 then maxEventBytes else 1;
    var p := FRESH;
    items, sent := [], [];
    var n := 0;
    assert script.events[..0] == [];
    while n < |script.events| && !collector.sawDone
      invariant n <= |script.events| && Holds(collector, script.events[..n])
      invariant At(script.events[..n], p, items, sent, max)
      invariant collector.sawDone <==> Finishes(script.events[..n])
    {
      var stopped;
      stopped, p, items, sent := Advance(script, collector, n, p, items, sent, max);
      if stopped.Some? {
        return stopped.value, items, sent, script.events[..n];
      }
      FinishesNext(script.events, n);
      n := n + 1;
    }
    delivered := script.events[..n];
    end := if script.failure.Some? then ProviderFailed(script.failure.value.0, script.failure.value.1)
      else if collector.sawDone then Finished
      else EndedWithoutCompletion;
  }
}
