/** Per-round accumulation of a model stream (`StreamCollector` in
    `src/agent.rs`) and its limits. */
module StreamCollecting {
  import opened Wrappers
  import opened Protocol
  import opened Bounded
  import opened Utf8
  import CanonicalJson

  datatype ModelEvent =
    | ReasoningDelta(delta: string)
    | Retrying(reason: string, delayMs: nat)
    | WebSearchStarted(query: string)
    | WebSearchResult(title: string, url: string, snippet: string)
    | WebSearchCompleted(count: nat)
    | ProviderItem(item: CanonicalJson.Json)
    | TextDelta(delta: string)
    | ToolCallDelta(slot: string, id: Option<string>, name: Option<string>, arguments: string)
    | ToolCallComplete(call: ToolCall)
    | ResponseId(responseId: string)
    | Usage(input: nat, output: nat, total: nat)
    | Done

  datatype Refusal = TextLimit | ToolCallLimit | ToolByteLimit | InvalidArguments

  datatype Partial = Partial(id: string, name: string, arguments: string)

  const MAX_REASONING_BYTES: nat := 64 * 1024

  function CallBytes(call: ToolCall): nat {
    Bytes(call.name) + Bytes(CanonicalJson.Canonical(call.arguments))
  }

  function PartialBytes(p: Partial): nat {
    Bytes(p.arguments)
  }

  /** Argument bytes held in `partials`, in any order of slots. */
  ghost function HeldBytes(partials: map<string, Partial>): nat
    decreases |partials|
  {
    if partials == map[] then 0
    else
      var slot :| slot in partials;
      PartialBytes(partials[slot]) + HeldBytes(partials - {slot})
  }

  lemma {:induction false} HeldBytesWithout(partials: map<string, Partial>, slot: string)
    requires slot in partials
    ensures HeldBytes(partials) == PartialBytes(partials[slot]) + HeldBytes(partials - {slot})
    decreases |partials|
  {
    var picked :| picked in partials && HeldBytes(partials) == PartialBytes(partials[picked]) + HeldBytes(partials - {picked});
    if picked != slot {
      HeldBytesWithout(partials - {picked}, slot);
      HeldBytesWithout(partials - {slot}, picked);
      assert partials - {picked} - {slot} == partials - {slot} - {picked};
    }
  }

  lemma HeldBytesUpdate(partials: map<string, Partial>, slot: string, p: Partial)
    ensures HeldBytes(partials[slot := p]) ==
      HeldBytes(partials) + PartialBytes(p) - (if slot in partials then PartialBytes(partials[slot]) else 0)
  {
    var updated := partials[slot := p];
    HeldBytesWithout(updated, slot);
    if slot in partials {
      HeldBytesWithout(partials, slot);
      assert updated - {slot} == partials - {slot};
    } else {
      assert updated - {slot} == partials;
    }
  }

  /** Drops characters until `minimum` bytes are gone. */
  function DropBytes(s: string, minimum: nat): string {
    if minimum == 0 || s == [] then s
    else DropBytes(s[1..], if minimum > CharBytes(s[0]) then minimum - CharBytes(s[0]) else 0)
  }

  lemma {:induction false} DropBytesIsNewest(s: string, max: nat)
    ensures DropBytes(s, if Bytes(s) > max then Bytes(s) - max else 0) == Newest(s, CharBytes, max, max)
  {
    CharsWithinBytes(s);
    if s != [] && Bytes(s) > max {
      DropBytesIsNewest(s[1..], max);
    }
  }

  lemma {:induction false} CharsWithinBytes(s: string)
    ensures |s| <= Bytes(s)
  {
    if s != [] {
      CharsWithinBytes(s[1..]);
    }
  }

  /** Keeps the newest reasoning text within the limit. */
  method AppendReasoningBounded(buffer: string, delta: string) returns (r: string)
    ensures r == Newest(buffer + delta, CharBytes, MAX_REASONING_BYTES, MAX_REASONING_BYTES)
  {
    r := buffer + delta;
    DropBytesIsNewest(r, MAX_REASONING_BYTES);
    if Bytes(r) <= MAX_REASONING_BYTES {
      return;
    }
    var minimum := Bytes(r) - MAX_REASONING_BYTES;
    r := DropBytes(r, minimum);
  }

  // ------------------------------------------------------- merging tool calls

  function DeltaVerdict(partials: map<string, Partial>, used: nat, calls: nat, slot: string, arguments: string,
                        maxBytes: nat, maxTotal: nat, maxCalls: nat): Result<(), Refusal> {
    if slot !in partials && |partials| + calls >= maxCalls then Err(ToolCallLimit)
    else if Bytes(Held(partials, slot).arguments) + Bytes(arguments) > maxBytes || used + Bytes(arguments) > maxTotal
    then Err(ToolByteLimit) else Ok(())
  }

  /** A delta refused for its size has still opened its slot. */
  function AfterDelta(partials: map<string, Partial>, r: Result<(), Refusal>, slot: string, id: Option<string>, name: Option<string>,
                      arguments: string): map<string, Partial> {
    if r == Err(ToolCallLimit) then partials
    else if r.Err? then partials[slot := Held(partials, slot)]
    else partials[slot := Merged(Held(partials, slot), id, name, arguments)]
  }

  /** Keeps the byte counter exact and both limits. */
  method MergeDelta(partials: map<string, Partial>, used: nat, calls: nat, slot: string, id: Option<string>, name: Option<string>,
                    arguments: string, maxBytes: nat, maxTotal: nat, maxCalls: nat)
    returns (r: Result<(), Refusal>, merged: map<string, Partial>, bytes: nat)
    requires |partials| + calls <= maxCalls && used <= maxTotal
    ensures r == DeltaVerdict(partials, used, calls, slot, arguments, maxBytes, maxTotal, maxCalls)
    ensures merged == AfterDelta(partials, r, slot, id, name, arguments)
    ensures bytes == if r.Ok? then used + Bytes(arguments) else used
    ensures HeldBytes(merged) - HeldBytes(partials) == bytes - used
    ensures |merged| + calls <= maxCalls && bytes <= maxTotal
  {
    merged, bytes := partials, used;
    if slot !in partials && |partials| + calls >= maxCalls {
      return Err(ToolCallLimit), merged, bytes;
    }
    var partial := if slot in partials then partials[slot] else Partial("", "", "");
    HeldBytesUpdate(partials, slot, partial);
    UpdateSize(partials, slot, partial);
    merged := partials[slot := partial];
    if Bytes(partial.arguments) + Bytes(arguments) > maxBytes || used + Bytes(arguments) > maxTotal {
      return Err(ToolByteLimit), merged, bytes;
    }
    var grown := Merged(partial, id, name, arguments);
    BytesConcat(partial.arguments, arguments);
    HeldBytesUpdate(partials, slot, grown);
    UpdateSize(partials, slot, grown);
    assert merged[slot := grown] == partials[slot := grown];
    merged := merged[slot := grown];
    bytes := used + Bytes(arguments);
    r := Ok(());
  }

  /** A delta is taken exactly if the calls stay within all three limits with it. */
  lemma DeltaFitsIff(partials: map<string, Partial>, used: nat, calls: nat, slot: string, id: Option<string>, name: Option<string>,
                     arguments: string, maxBytes: nat, maxTotal: nat, maxCalls: nat)
    requires |partials| + calls <= maxCalls
    ensures var after := partials[slot := Merged(Held(partials, slot), id, name, arguments)];
      DeltaVerdict(partials, used, calls, slot, arguments, maxBytes, maxTotal, maxCalls).Ok? <==>
        && |after| + calls <= maxCalls && PartialBytes(after[slot]) <= maxBytes
        && used + HeldBytes(after) - HeldBytes(partials) <= maxTotal
  {
    var merged := Merged(Held(partials, slot), id, name, arguments);
    UpdateSize(partials, slot, merged);
    HeldBytesUpdate(partials, slot, merged);
    BytesConcat(Held(partials, slot).arguments, arguments);
  }

  /** No call exceeds the limit for one call. */
  ghost predicate PartialsFit(partials: map<string, Partial>, max: nat) {
    forall slot :: slot in partials ==> PartialBytes(partials[slot]) <= max
  }

  predicate CallsFit(calls: seq<ToolCall>, max: nat) {
    forall k :: 0 <= k < |calls| ==> CallBytes(calls[k]) <= max
  }

  lemma FewerFit(partials: map<string, Partial>, replaced: Option<string>, max: nat)
    requires PartialsFit(partials, max)
    ensures PartialsFit(Unreplaced(partials, replaced), max)
  {
  }

  lemma MoreFit(calls: seq<ToolCall>, call: ToolCall, max: nat)
    requires CallsFit(calls, max) && CallBytes(call) <= max
    ensures CallsFit(calls + [call], max)
  {
  }

  lemma StaysSmall(partials: map<string, Partial>, used: nat, calls: nat, slot: string, id: Option<string>, name: Option<string>,
                   arguments: string, maxBytes: nat, maxTotal: nat, maxCalls: nat)
    requires PartialsFit(partials, maxBytes)
    ensures var r := DeltaVerdict(partials, used, calls, slot, arguments, maxBytes, maxTotal, maxCalls);
      var after := AfterDelta(partials, r, slot, id, name, arguments);
      PartialsFit(after, maxBytes)
  {
    BytesConcat(Held(partials, slot).arguments, arguments);
  }

  lemma UpdateSize<K, V>(m: map<K, V>, k: K, v: V)
    ensures |m[k := v]| == |m| + (if k in m then 0 else 1)
  {
    assert m[k := v].Keys == m.Keys + {k};
    assert |m.Keys| == |m| && |m[k := v].Keys| == |m[k := v]|;
  }

  /** Some partial call with the same id, if there is one. */
  predicate Replaces(partials: map<string, Partial>, call: ToolCall, replaced: Option<string>) {
    if replaced.Some? then replaced.value in partials && partials[replaced.value].id == call.id
    else forall slot :: slot in partials ==> partials[slot].id != call.id
  }

  function Unreplaced(partials: map<string, Partial>, replaced: Option<string>): map<string, Partial> {
    if replaced.Some? then partials - {replaced.value} else partials
  }

  /** What an accepted event does to the partial calls. */
  ghost predicate Taken(partials: map<string, Partial>, event: ModelEvent, after: map<string, Partial>) {
    match event
    case ToolCallDelta(slot, id, name, arguments) => after == partials[slot := Merged(Held(partials, slot), id, name, arguments)]
    case ToolCallComplete(call) => exists replaced :: Replaces(partials, call, replaced) && after == Unreplaced(partials, replaced)
    case _ => after == partials
  }

  function Freed(partials: map<string, Partial>, replaced: Option<string>): nat {
    if replaced.Some? && replaced.value in partials then PartialBytes(partials[replaced.value]) else 0
  }

  function CallVerdict(used: int, calls: nat, call: ToolCall, maxBytes: nat, maxTotal: nat, maxCalls: nat): Result<(), Refusal> {
    if calls >= maxCalls then Err(ToolCallLimit)
    else if CallBytes(call) > maxBytes || used + CallBytes(call) > maxTotal then Err(ToolByteLimit)
    else Ok(())
  }

  method Replace(partials: map<string, Partial>, used: nat, call: ToolCall)
    returns (rest: map<string, Partial>, bytes: nat, ghost replaced: Option<string>)
    requires HeldBytes(partials) <= used
    ensures Replaces(partials, call, replaced) && rest == Unreplaced(partials, replaced)
    ensures bytes == used - Freed(partials, replaced)
    ensures HeldBytes(rest) == HeldBytes(partials) - Freed(partials, replaced) && |rest| <= |partials|
  {
    rest, bytes, replaced := partials, used, None;
    if exists slot :: slot in partials && partials[slot].id == call.id {
      var slot :| slot in partials && partials[slot].id == call.id;
      replaced := Some(slot);
      HeldBytesWithout(partials, slot);
      RemoveShrinks(partials, slot);
      bytes := used - PartialBytes(partials[slot]);
      rest := partials - {slot};
    }
  }

  /** What the caller gets to see of an event the collector took. */
  function PassedOn(event: ModelEvent): Option<ModelEvent> {
    match event
    case ToolCallComplete(_) => None
    case Done => None
    case ToolCallDelta(slot, _, name, arguments) => Some(ModelEvent.ToolCallDelta(slot, None, name, arguments))
    case _ => Some(event)
  }

  class StreamCollector {
    var assistantText: string
    var reasoningText: string
    var partials: map<string, Partial>
    var completedCalls: seq<ToolCall>
    var completedIds: set<string>
    var sawDone: bool
    var toolCallBytes: nat
    const maxTextBytes: Option<nat>
    const maxToolCallBytes: nat
    const maxToolCallTotalBytes: nat
    const maxToolCalls: nat
    /** All text and reasoning received, and whether any text was turned away. */
    ghost var arrivedText: string
    ghost var arrivedReasoning: string
    ghost var refused: bool

    constructor (maxTextBytes: Option<nat>, maxToolCallBytes: nat, maxToolCallTotalBytes: nat, maxToolCalls: nat)
      ensures Valid() && !refused && arrivedText == [] && arrivedReasoning == []
      ensures completedCalls == [] && completedIds == {} && partials == map[] && !sawDone
      ensures this.maxTextBytes == maxTextBytes && this.maxToolCalls == maxToolCalls
    {
      assistantText, reasoningText, partials, completedCalls, completedIds := [], [], map[], [], {};
      sawDone, toolCallBytes := false, 0;
      this.maxTextBytes := maxTextBytes;
      this.maxToolCallBytes, this.maxToolCallTotalBytes, this.maxToolCalls := maxToolCallBytes, maxToolCallTotalBytes, maxToolCalls;
      arrivedText, arrivedReasoning, refused := [], [], false;
    }

    /** What `text` should be after everything in `arrived`. */
    ghost function Kept(arrived: string): string {
      if maxTextBytes.Some? then Prefix(arrived, maxTextBytes.value) else arrived
    }

    ghost predicate ValidTools()
      reads this
    {
      && toolCallBytes == HeldBytes(partials) + Total(completedCalls, CallBytes)
      && PartialsFit(partials, maxToolCallBytes) && CallsFit(completedCalls, maxToolCallBytes)
      && toolCallBytes <= maxToolCallTotalBytes
      && |partials| + |completedCalls| <= maxToolCalls
    }

    ghost predicate ValidText()
      reads this
    {
      && (maxTextBytes.Some? ==> Bytes(assistantText) <= maxTextBytes.value)
      && (!refused ==> assistantText == arrivedText)
      && (refused ==> maxTextBytes.Some? && Bytes(arrivedText) > maxTextBytes.value)
      && reasoningText == Newest(arrivedReasoning, CharBytes, MAX_REASONING_BYTES, MAX_REASONING_BYTES)
    }

    ghost predicate Valid()
      reads this
    {
      ValidTools() && ValidText()
    }

    ghost predicate TakesText(delta: string)
      reads this
    {
      maxTextBytes.Some? ==> Bytes(assistantText) + Bytes(delta) <= maxTextBytes.value
    }

    ghost predicate TakesDelta(slot: string, arguments: string)
      reads this
    {
      DeltaVerdict(partials, toolCallBytes, |completedCalls|, slot, arguments, maxToolCallBytes, maxToolCallTotalBytes, maxToolCalls).Ok?
    }

    /** A complete call fits even if it replaces no partial one. */
    ghost predicate TakesCall(call: ToolCall)
      reads this
    {
      CallVerdict(toolCallBytes, |completedCalls| + |partials|, call, maxToolCallBytes, maxToolCallTotalBytes, maxToolCalls).Ok?
    }

    /** Text is cut at the limit; the delta that crosses it is refused. */
    method OnText(delta: string) returns (r: Result<(), Refusal>)
      requires ValidText()
      modifies this`assistantText, this`arrivedText, this`refused
      ensures ValidText()
      ensures arrivedText == old(arrivedText) + delta
      ensures r == if old(TakesText(delta)) then Ok(()) else Err(TextLimit)
      ensures refused == (old(refused) || r.Err?)
      ensures assistantText == old(assistantText)
        + (if maxTextBytes.Some? then Prefix(delta, maxTextBytes.value - Bytes(old(assistantText))) else delta)
      ensures !old(refused) ==> assistantText == Kept(arrivedText)
      ensures (old(refused) && old(assistantText == Kept(arrivedText))) ==>
        (assistantText == Kept(arrivedText) <==>
          delta == [] || Bytes(old(assistantText)) + CharBytes(delta[0]) > maxTextBytes.value)
    {
      ghost var before, arrived := assistantText, arrivedText;
      arrivedText := arrivedText + delta;
      if maxTextBytes.Some? {
        var max := maxTextBytes.value;
        TextLaws(before, arrived, delta, max);
        BytesConcat(arrived, delta);
        if Bytes(assistantText) + Bytes(delta) > max {
          assistantText := AppendTextBounded(assistantText, delta, max);
          refused := true;
          return Err(TextLimit);
        }
        assistantText := AppendTextBounded(assistantText, delta, max);
      } else {
        assistantText := assistantText + delta;
      }
      r := Ok(());
    }

    /** Merges one argument delta into the partial call of `slot`. */
    method OnToolCallDelta(slot: string, id: Option<string>, name: Option<string>, arguments: string)
      returns (r: Result<(), Refusal>)
      requires ValidTools()
      modifies this`partials, this`toolCallBytes
      ensures ValidTools()
      ensures r == DeltaVerdict(old(partials), old(toolCallBytes), |completedCalls|, slot, arguments, maxToolCallBytes, maxToolCallTotalBytes, maxToolCalls)
      ensures partials == AfterDelta(old(partials), r, slot, id, name, arguments)
      ensures toolCallBytes == if r.Ok? then old(toolCallBytes) + Bytes(arguments) else old(toolCallBytes)
    {
      StaysSmall(partials, toolCallBytes, |completedCalls|, slot, id, name, arguments, maxToolCallBytes, maxToolCallTotalBytes, maxToolCalls);
      r, partials, toolCallBytes := MergeDelta(
        partials, toolCallBytes, |completedCalls|, slot, id, name, arguments, maxToolCallBytes, maxToolCallTotalBytes, maxToolCalls);
    }

    /** A complete call replaces one partial call with its id, if there is one. */
    method OnToolCallComplete(call: ToolCall) returns (r: Result<(), Refusal>, ghost replaced: Option<string>)
      requires ValidTools()
      modifies this`partials, this`toolCallBytes, this`completedCalls, this`completedIds
      ensures ValidTools() && (old(TakesCall(call)) ==> r.Ok?)
      ensures Replaces(old(partials), call, replaced)
      ensures partials == Unreplaced(old(partials), replaced)
      ensures r == CallVerdict(old(toolCallBytes) - Freed(old(partials), replaced), |old(completedCalls)| + |partials|, call,
                               maxToolCallBytes, maxToolCallTotalBytes, maxToolCalls)
      ensures completedCalls == if r.Ok? then old(completedCalls) + [call] else old(completedCalls)
      ensures completedIds == if r.Ok? then old(completedIds) + {call.id} else old(completedIds)
    {
      var rest, used;
      rest, used, replaced := Replace(partials, toolCallBytes, call);
      FewerFit(partials, replaced, maxToolCallBytes);
      partials, toolCallBytes := rest, used;
      if |completedCalls| + |partials| >= maxToolCalls {
        return Err(ToolCallLimit), replaced;
      }
      if CallBytes(call) > maxToolCallBytes || toolCallBytes + CallBytes(call) > maxToolCallTotalBytes {
        return Err(ToolByteLimit), replaced;
      }
      TotalConcat(completedCalls, [call], CallBytes);
      MoreFit(completedCalls, call, maxToolCallBytes);
      toolCallBytes := toolCallBytes + CallBytes(call);
      completedIds := completedIds + {call.id};
      completedCalls := completedCalls + [call];
      r := Ok(());
    }

    method OnReasoning(delta: string)
      requires ValidText()
      modifies this`reasoningText, this`arrivedReasoning
      ensures ValidText() && arrivedReasoning == old(arrivedReasoning) + delta
    {
      NewestIsIncremental(arrivedReasoning, delta, CharBytes, MAX_REASONING_BYTES, MAX_REASONING_BYTES);
      reasoningText := AppendReasoningBounded(reasoningText, delta);
      arrivedReasoning := arrivedReasoning + delta;
    }

    method OnToolEvent(event: ModelEvent) returns (r: Result<Option<ModelEvent>, Refusal>)
      requires ValidTools() && (event.ToolCallDelta? || event.ToolCallComplete?)
      modifies this`partials, this`toolCallBytes, this`completedCalls, this`completedIds
      ensures ValidTools()
      ensures r.Ok? ==> r.value == PassedOn(event) && Taken(old(partials), event, partials)
      ensures completedCalls == old(completedCalls) + (if event.ToolCallComplete? && r.Ok? then [event.call] else [])
      ensures completedIds == old(completedIds) + (if event.ToolCallComplete? && r.Ok? then {event.call.id} else {})
      ensures event.ToolCallDelta? ==> (r.Ok? <==> old(TakesDelta(event.slot, event.arguments)))
      ensures event.ToolCallComplete? ==> old(TakesCall(event.call)) ==> r.Ok?
    {
      if event.ToolCallDelta? {
        var merged := OnToolCallDelta(event.slot, event.id, event.name, event.arguments);
        r := if merged.Ok? then Ok(Some(ModelEvent.ToolCallDelta(event.slot, None, event.name, event.arguments))) else Err(merged.error);
      } else {
        var completed, _ := OnToolCallComplete(event.call);
        r := if completed.Ok? then Ok(None) else Err(completed.error);
      }
    }

    method OnWords(event: ModelEvent) returns (r: Result<Option<ModelEvent>, Refusal>)
      requires ValidText() && (event.TextDelta? || event.ReasoningDelta?)
      modifies this`assistantText, this`arrivedText, this`refused, this`reasoningText, this`arrivedReasoning
      ensures ValidText()
      ensures arrivedText == if event.TextDelta? then old(arrivedText) + event.delta else old(arrivedText)
      ensures arrivedReasoning == if event.ReasoningDelta? then old(arrivedReasoning) + event.delta else old(arrivedReasoning)
      ensures r.Ok? ==> r.value == PassedOn(event)
      ensures event.TextDelta? && !old(refused) ==> assistantText == Kept(arrivedText)
      ensures refused == (old(refused) || (event.TextDelta? && r.Err?))
      ensures r.Ok? <==> event.ReasoningDelta? || old(TakesText(event.delta))
    {
      if event.TextDelta? {
        var text := OnText(event.delta);
        r := if text.Ok? then Ok(Some(event)) else Err(text.error);
      } else {
        OnReasoning(event.delta);
        r := Ok(Some(event));
      }
    }

    /** Dispatches one model event; `Ok(Some(e))` hands `e` on to the caller. */
    method OnEvent(event: ModelEvent) returns (r: Result<Option<ModelEvent>, Refusal>)
      requires Valid()
      modifies this
      ensures Valid()
      ensures arrivedText == if event.TextDelta? then old(arrivedText) + event.delta else old(arrivedText)
      ensures arrivedReasoning == if event.ReasoningDelta? then old(arrivedReasoning) + event.delta else old(arrivedReasoning)
      ensures r.Ok? ==> r.value == PassedOn(event) && Taken(old(partials), event, partials)
      ensures event.TextDelta? && !old(refused) ==> assistantText == Kept(arrivedText)
      ensures refused == (old(refused) || (event.TextDelta? && r.Err?))
      ensures sawDone == (old(sawDone) || event.Done?)
      ensures completedCalls == old(completedCalls) + (if event.ToolCallComplete? && r.Ok? then [event.call] else [])
      ensures completedIds == old(completedIds) + (if event.ToolCallComplete? && r.Ok? then {event.call.id} else {})
      ensures match event
        case TextDelta(delta) => r.Ok? <==> old(TakesText(delta))
        case ToolCallDelta(slot, _, _, arguments) => r.Ok? <==> old(TakesDelta(slot, arguments))
        case ToolCallComplete(call) => old(TakesCall(call)) ==> r.Ok?
        case _ => r.Ok?
    {
      if event.TextDelta? || event.ReasoningDelta? {
        r := OnWords(event);
      } else if event.ToolCallDelta? || event.ToolCallComplete? {
        r := OnToolEvent(event);
      } else {
        sawDone := sawDone || event.Done?;
        r := Ok(PassedOn(event));
      }
    }

    /** Turns the remaining partial calls into calls. `parse` is the JSON parser
        and `freshId` the source of call ids. */
    method FinishPartials(parse: string -> Option<CanonicalJson.Json>, freshId: string -> string)
      returns (r: Result<(), Refusal>, ghost order: seq<string>)
      requires ValidTools()
      modifies this`partials, this`completedCalls
      ensures partials == map[] && |completedCalls| <= maxToolCalls
      ensures completedCalls == old(completedCalls) + Finished(old(partials), order, parse, freshId)
      ensures Converted(old(partials), if r.Ok? then map[] else old(partials), order, completedIds, r.Ok?)
      ensures Parsed(old(partials), order, parse)
      ensures r.Err? ==> Unparsable(old(partials), completedIds, parse)
    {
      var taken := partials;
      partials := map[];
      var calls;
      r, calls, order := ConvertAll(taken, completedIds, parse, freshId);
      completedCalls := completedCalls + calls;
    }
  }

  /** The loop of `finish_partials`: every named partial call becomes a call,
      once, until one has arguments that do not parse. */
  method ConvertAll(partials: map<string, Partial>, ids: set<string>, parse: string -> Option<CanonicalJson.Json>, freshId: string -> string)
    returns (r: Result<(), Refusal>, calls: seq<ToolCall>, ghost order: seq<string>)
    ensures calls == Finished(partials, order, parse, freshId) && |calls| <= |partials|
    ensures Converted(partials, if r.Ok? then map[] else partials, order, ids, r.Ok?) && Parsed(partials, order, parse)
    ensures r.Err? ==> Unparsable(partials, ids, parse)
  {
    var rest := partials;
    calls, order := [], [];
    while rest != map[]
      invariant Converted(partials, rest, order, ids, true) && Parsed(partials, order, parse)
      invariant calls == Finished(partials, order, parse, freshId) && |calls| + |rest| <= |partials|
      decreases |rest|
    {
      var slot :| slot in rest;
      var partial := rest[slot];
      RemoveShrinks(rest, slot);
      ConvertStep(partials, rest, order, ids, slot);
      rest := rest - {slot};
      if partial.id !in ids && partial.name != "" {
        var arguments := parse(Arguments(partial));
        if arguments.None? {
          return Err(InvalidArguments), calls, order;
        }
        FinishedSnoc(partials, order, slot, parse, freshId);
        calls := calls + [ToolCall(if partial.id == "" then freshId(slot) else partial.id, partial.name, arguments.value)];
        order := order + [slot];
      }
    }
    r := Ok(());
  }

  ghost predicate Unparsable(partials: map<string, Partial>, ids: set<string>, parse: string -> Option<CanonicalJson.Json>) {
    exists slot :: slot in partials && Named(partials[slot], ids) && parse(Arguments(partials[slot])).None?
  }

  /** The arguments of the slots in `order` are JSON. */
  predicate Parsed(partials: map<string, Partial>, order: seq<string>, parse: string -> Option<CanonicalJson.Json>) {
    forall slot :: slot in order ==> slot in partials && parse(Arguments(partials[slot])).Some?
  }

  /** A partial call that still stands for a call to make. */
  predicate Named(partial: Partial, completedIds: set<string>) {
    partial.name != "" && partial.id !in completedIds
  }

  /** `order` lists distinct named slots of `all`; if `complete`, all of them
      but those still in `rest`. */
  ghost predicate Converted(all: map<string, Partial>, rest: map<string, Partial>, order: seq<string>, ids: set<string>, complete: bool) {
    && (forall slot :: slot in rest ==> slot in all && rest[slot] == all[slot])
    && (forall i, j :: 0 <= i < j < |order| ==> order[i] != order[j])
    && (forall slot :: slot in order ==> slot in all && Named(all[slot], ids))
    && (complete ==> forall slot :: slot in all && Named(all[slot], ids) ==> (slot in rest <==> slot !in order))
  }

  lemma ConvertStep(all: map<string, Partial>, rest: map<string, Partial>, order: seq<string>, ids: set<string>, slot: string)
    requires Converted(all, rest, order, ids, true) && slot in rest
    ensures if Named(rest[slot], ids) then Converted(all, rest - {slot}, order + [slot], ids, true)
      else Converted(all, rest - {slot}, order, ids, true)
    ensures Converted(all, all, order, ids, false)
  {
  }

  function Arguments(partial: Partial): string {
    if partial.arguments == "" then "{}" else partial.arguments
  }

  function CallOf(partial: Partial, slot: string, parse: string -> Option<CanonicalJson.Json>, freshId: string -> string): ToolCall {
    var arguments := parse(Arguments(partial));
    ToolCall(if partial.id == "" then freshId(slot) else partial.id, partial.name,
             if arguments.Some? then arguments.value else CanonicalJson.Null)
  }

  /** The calls made of the partial calls in the slots `order`. */
  function Finished(partials: map<string, Partial>, order: seq<string>, parse: string -> Option<CanonicalJson.Json>, freshId: string -> string): seq<ToolCall> {
    if order == [] then []
    else
      var slot := order[|order| - 1];
      Finished(partials, order[..|order| - 1], parse, freshId) + [CallOf(Held(partials, slot), slot, parse, freshId)]
  }

  lemma FinishedSnoc(partials: map<string, Partial>, order: seq<string>, slot: string, parse: string -> Option<CanonicalJson.Json>, freshId: string -> string)
    ensures Finished(partials, order + [slot], parse, freshId)
      == Finished(partials, order, parse, freshId) + [CallOf(Held(partials, slot), slot, parse, freshId)]
  {
    assert (order + [slot])[..|order|] == order;
  }

  lemma RemoveShrinks<K, V>(m: map<K, V>, k: K)
    requires k in m
    ensures |m - {k}| == |m| - 1
  {
    assert (m - {k}).Keys == m.Keys - {k};
    assert |m.Keys| == |m| && |(m - {k}).Keys| == |m - {k}|;
  }

  function Held(partials: map<string, Partial>, slot: string): Partial {
    if slot in partials then partials[slot] else Partial("", "", "")
  }

  function Merged(p: Partial, id: Option<string>, name: Option<string>, arguments: string): Partial {
    Partial(if id.Some? then id.value else p.id, if name.Some? then name.value else p.name, p.arguments + arguments)
  }

  /** Facts about one bounded append of `delta` to `text`. */
  lemma TextLaws(text: string, arrived: string, delta: string, max: nat)
    requires Bytes(text) <= max
    ensures Bytes(text + Prefix(delta, max - Bytes(text))) <= max
    ensures Bytes(text) + Bytes(delta) <= max ==> Prefix(delta, max - Bytes(text)) == delta
    ensures text == arrived ==> text + Prefix(delta, max - Bytes(text)) == Prefix(arrived + delta, max)
    ensures text == Prefix(arrived, max) && Bytes(arrived) > max ==> Prefix(arrived + delta, max) == text
    ensures text + Prefix(delta, max - Bytes(text)) == text
      <==> delta == [] || Bytes(text) + CharBytes(delta[0]) > max
  {
    PrefixIsLongest(delta, max - Bytes(text));
    BytesConcat(text, Prefix(delta, max - Bytes(text)));
    PrefixConcat(text, delta, max);
    if Bytes(text) + Bytes(delta) <= max {
      PrefixOfFitting(delta, max - Bytes(text));
    }
    if Bytes(arrived) > max {
      PrefixOfOverflowing(arrived, delta, max);
    }
  }

  lemma {:induction false} PrefixOfOverflowing(s: string, u: string, max: nat)
    requires Bytes(s) > max
    ensures Prefix(s + u, max) == Prefix(s, max)
  {
    assert (s + u)[0] == s[0] && (s + u)[1..] == s[1..] + u;
    if CharBytes(s[0]) <= max {
      PrefixOfOverflowing(s[1..], u, max - CharBytes(s[0]));
    }
  }

  /** A caller that goes on after a refused delta gets a text that is no prefix of
      what arrived: the next smaller character can still fit. */
  method TextAfterRefusalIsNoPrefix() returns (refused: Result<(), Refusal>, taken: Result<(), Refusal>, text: string)
    ensures refused == Err(TextLimit) && taken == Ok(())
    ensures text == "abcd" && Prefix("abc\U{e9}d", 4) == "abc"
  {
    AccentDoesNotFit();
    var collector := new StreamCollector(Some(4), 0, 0, 0);
    var first := collector.OnText("abc");
    refused := collector.OnText("\U{e9}");
    taken := collector.OnText("d");
    text := collector.assistantText;
  }

  lemma AccentDoesNotFit()
    ensures Bytes("abc") == 3 && Bytes("d") == 1 && Bytes("\U{e9}") == 2
    ensures Prefix("abc", 4) == "abc" && Prefix("\U{e9}", 1) == "" && Prefix("d", 1) == "d"
    ensures Prefix("abc\U{e9}d", 4) == "abc"
    ensures "" + "abc" == "abc" && "abc" + "" == "abc" && "abc" + "d" == "abcd"
  {
    assert "abc"[1..] == "bc" && "bc"[1..] == "c" && "c"[1..] == "" && "d"[1..] == "" && "\U{e9}"[1..] == "";
    assert Bytes("c") == 1 + Bytes("") && Bytes("bc") == 1 + Bytes("c") && Bytes("abc") == 1 + Bytes("bc") && Bytes("d") == 1;
    assert Bytes("\U{e9}") == 2 + Bytes("");
    PrefixOfFitting("abc", 4);
    PrefixOfFitting("d", 1);
    var s := "abc\U{e9}d";
    assert s == "abc" + "\U{e9}d";
    PrefixConcat("abc", "\U{e9}d", 4);
    assert Prefix("\U{e9}d", 1) == "";
  }
}
