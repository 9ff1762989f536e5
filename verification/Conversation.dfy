/** Conversation history (`src/provider/mod.rs`) and the sub-history that is
    safe to replay (`replay_safe_items` in `src/agent.rs`). */
module Conversation {
  import opened Protocol
  import opened Sequences
  import CanonicalJson

  datatype Role = System | User | Assistant

  datatype Item =
    | Message(role: Role, content: string)
    | ThinkingSummary(content: string)
    | CompactionSummary(content: string)
    | Context(source: string, content: string)
    | ProviderItem(item: CanonicalJson.Json)
    | AssistantToolCalls(calls: seq<ToolCall>)
    | ToolOutput(callId: string, output: string)

  predicate IsUserMessage(item: Item) {
    item.Message? && item.role == User
  }

  function OutputIds(items: seq<Item>): set<string> {
    set k | 0 <= k < |items| && items[k].ToolOutput? :: items[k].callId
  }

  function Ids(calls: seq<ToolCall>): set<string> {
    set k | 0 <= k < |calls| :: calls[k].id
  }

  /** The calls whose id is in `ids`. */
  function Only(calls: seq<ToolCall>, ids: set<string>): seq<ToolCall> {
    if calls == [] then []
    else (if calls[0].id in ids then [calls[0]] else []) + Only(calls[1..], ids)
  }

  /** What one item contributes to the replay, after calls `known`. */
  function Emit(item: Item, outputs: set<string>, known: set<string>): seq<Item> {
    match item
    case AssistantToolCalls(calls) =>
      if Only(calls, outputs) == [] then [] else [AssistantToolCalls(Only(calls, outputs))]
    case ToolOutput(callId, _) => if callId in known then [item] else []
    case _ => [item]
  }

  function Learn(item: Item, outputs: set<string>, known: set<string>): set<string> {
    if item.AssistantToolCalls? then known + Ids(Only(item.calls, outputs)) else known
  }

  /** What is replayed of `items` after calls `known`. */
  function Replay(items: seq<Item>, outputs: set<string>, known: set<string>): seq<Item> {
    if items == [] then []
    else Emit(items[0], outputs, known) + Replay(items[1..], outputs, Learn(items[0], outputs, known))
  }

  function ReplaySafe(items: seq<Item>): seq<Item> {
    Replay(items, OutputIds(items), {})
  }

  method ReplaySafeItems(items: seq<Item>) returns (replay: seq<Item>)
    ensures replay == ReplaySafe(items)
  {
    var outputIds := OutputIds(items);
    var knownCalls: set<string> := {};
    replay := [];
    assert items[0..] == items;
    for n := 0 to |items|
      invariant replay + Replay(items[n..], outputIds, knownCalls) == ReplaySafe(items)
    {
      ghost var before, known := replay, knownCalls;
      assert items[n..][1..] == items[n + 1..];
      match items[n] {
        case AssistantToolCalls(calls) =>
          var kept := Only(calls, outputIds);
          if kept != [] {
            knownCalls := knownCalls + Ids(kept);
            replay := replay + [AssistantToolCalls(kept)];
          }
        case ToolOutput(callId, _) =>
          if callId in knownCalls {
            replay := replay + [items[n]];
          }
        case _ =>
          replay := replay + [items[n]];
      }
      assert replay == before + Emit(items[n], outputIds, known);
      assert knownCalls == Learn(items[n], outputIds, known);
      Assoc(before, Emit(items[n], outputIds, known), Replay(items[n + 1..], outputIds, knownCalls));
    }
    assert replay + [] == replay;
  }
}
