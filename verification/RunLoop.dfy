/** The rounds of a run (`run` and `run_inner` in `src/agent/runner.rs`), with
    every request a full replay. */
module RunLoop {
  import opened Wrappers
  import opened Sequences
  import opened Protocol
  import opened Conversation
  import opened StreamCollecting
  import opened PartialCalls
  import opened Compaction
  import opened ToolBlocks
  import opened ToolDispatch
  import opened ToolRounds
  import opened ToolResults
  import opened Forwarding
  import opened RoundTheorems
  import Bounded
  import CanonicalJson
  import Conformance
  import SseDecoding
  import Utf8

  datatype Limits = Limits(maxEventBytes: nat, maxResponseBytes: nat, maxToolCallBytes: nat, maxToolCallTotalBytes: nat, maxToolCalls: nat)

  datatype Runner = Runner(config: Config, settings: Settings, limits: Limits, systemPrompt: string)

  datatype StorePoint = ClearResponseId | AppendThinking | AppendMessage | ClearPartial | AppendCalls

  /** What the world does in one round. `parse` and `freshId` are the JSON
      parser and the source of call ids. */
  datatype Round = Round(
    stream: Script, parse: string -> Option<CanonicalJson.Json>, freshId: string -> string,
    compaction: Outcome, world: World, fault: Option<(StorePoint, string)>)

  predicate FailsAt(round: Round, point: StorePoint) {
    round.fault.Some? && round.fault.value.0 == point
  }

  function TrimEnd(s: string): string {
    if s != [] && SseDecoding.IsWhite(s[|s| - 1]) then TrimEnd(s[..|s| - 1]) else s
  }

  function Trim(s: string): string {
    TrimEnd(SseDecoding.TrimStart(s))
  }

  const CANCELLED := "cancelled:"

  /** How `run` reports the error that ended the loop. */
  function Ending(error: string): Event {
    if CANCELLED <= error then Cancelled(error) else Failed(error)
  }

  function RefusalText(limit: Refusal): string {
    match limit
    case TextLimit => "model response exceeded the byte limit"
    case ToolCallLimit => "model returned more tool calls than allowed"
    case ToolByteLimit => "tool call arguments exceeded the configured byte limit"
    case InvalidArguments => "invalid tool arguments"
  }

  // -------------------------------------------------------- shrinking history

  /** `items[k..]` behind one new item; `head` is where the run's own part began. */
  function NewHead(head: nat, k: nat): nat {
    1 + if k < head then head - k else 0
  }

  ghost predicate Shrunk(items: seq<Item>, head: nat, after: seq<Item>, newHead: nat) {
    exists k: nat :: k <= |items| && ShrunkAt(items, head, after, newHead, k)
  }

  ghost predicate ShrunkAt(items: seq<Item>, head: nat, after: seq<Item>, newHead: nat, k: nat)
    requires k <= |items|
  {
    |after| == 1 + |items| - k && after[1..] == items[k..] && newHead == NewHead(head, k)
  }

  /** A run's own part is whole blocks of calls and outputs. */
  ghost predicate Whole(items: seq<Item>, head: nat) {
    head <= |items| && Blocks(items[head..])
  }

  /** The own part of what is left, as a part of the old items. */
  lemma BehindNewItem(items: seq<Item>, head: nat, first: Item, k: nat)
    requires k <= |items| && head <= |items| && Blocks(items[if k < head then head else k..])
    ensures Whole([first] + items[k..], NewHead(head, k)) && Shrunk(items, head, [first] + items[k..], NewHead(head, k))
  {
    var after := [first] + items[k..];
    assert after[NewHead(head, k)..] == items[if k < head then head else k..];
    assert after[1..] == items[k..];
    assert ShrunkAt(items, head, after, NewHead(head, k), k);
  }

  lemma CutKeepsWhole(items: seq<Item>, head: nat, first: Item, k: nat)
    requires Whole(items, head) && k <= |items| && (k == |items| || IsUserMessage(items[k]))
    ensures Whole([first] + items[k..], NewHead(head, k)) && Shrunk(items, head, [first] + items[k..], NewHead(head, k))
  {
    if k < |items| {
      UserMessageIsOlder(items, head, k);
    } else {
      assert items[k..] == [];
    }
    BehindNewItem(items, head, first, k);
  }

  lemma UserMessageIsOlder(items: seq<Item>, head: nat, k: nat)
    requires Whole(items, head) && k < |items| && IsUserMessage(items[k])
    ensures k < head
  {
    if k >= head {
      assert items[head..][k - head] == items[k];
      NoUserMessageInBlocks(items[head..], k - head);
    }
  }

  lemma {:induction false} DropAcross(a: seq<Item>, own: seq<Item>)
    requires own == [] || !own[0].ToolOutput?
    ensures DropOutputs(a + own) == DropOutputs(a) + own
    decreases |a|
  {
    if a == [] {
      assert a + own == own;
    } else if a[0].ToolOutput? {
      assert (a + own)[1..] == a[1..] + own;
      DropAcross(a[1..], own);
    }
  }

  lemma OwnStartsWithNoOutput(items: seq<Item>, head: nat)
    requires Whole(items, head)
    ensures head == |items| || !items[head].ToolOutput?
  {
    if head < |items| {
      assert items[head..][0] == items[head];
    }
  }

  /** Dropping from the front, then orphaned outputs, leaves whole blocks. */
  lemma DropKeepsWhole(items: seq<Item>, head: nat, cut: nat, k: nat)
    requires Whole(items, head) && cut <= |items| && k <= |items| && items[k..] == DropOutputs(items[cut..])
    ensures Blocks(items[if k < head then head else k..])
  {
    if cut >= head {
      assert items[cut..] == items[head..][cut - head..];
      TrimKeepsBlocks(items[head..], cut - head);
      DropOutputsIsSuffix(items[cut..]);
      assert |items| - k <= |items| - cut;
    } else {
      OwnStartsWithNoOutput(items, head);
      assert items[cut..] == items[cut..head] + items[head..];
      DropAcross(items[cut..head], items[head..]);
      DropOutputsIsSuffix(items[cut..]);
      assert |items| - k >= |items| - head;
    }
  }

  lemma TrimKeepsWhole(items: seq<Item>, head: nat, budget: nat) returns (newHead: nat)
    requires Whole(items, head)
    ensures Whole(Trimmed(items, budget), newHead)
    ensures (Trimmed(items, budget) == items && newHead == head) || Shrunk(items, head, Trimmed(items, budget), newHead)
  {
    TrimmedIs(items, budget);
    var k := |items| - |TrimmedRest(items, budget)|;
    if k == 0 {
      return head;
    }
    newHead := NewHead(head, k);
    DropIsShrunk(items, head, FirstFit(items, budget), TrimNote(k), Trimmed(items, budget), k);
  }

  lemma DropIsShrunk(items: seq<Item>, head: nat, cut: nat, note: Item, after: seq<Item>, k: nat)
    requires Whole(items, head) && cut <= |items| && k <= |items| && items[k..] == DropOutputs(items[cut..])
    requires after == Replaced(items, note, k)
    ensures Whole(after, NewHead(head, k)) && Shrunk(items, head, after, NewHead(head, k))
  {
    DropKeepsWhole(items, head, cut, k);
    BehindNewItem(items, head, note, k);
  }

  function Compacted(items: seq<Item>, settings: Settings, outcome: Outcome): Result<seq<Item>, string>
    requires IsCalibration(settings.calibration)
  {
    match PlanFor(items, settings)
    case NothingToDo => Ok(items)
    case NoRoom => Err(NO_ROOM)
    case CutAt(cut) =>
      if outcome.Summarized? then Ok(Replaced(items, CompactionSummary(outcome.text), cut)) else Err(Reason(outcome))
  }

  /** The conversation after compaction or, where that fails, the trim. */
  function Shrunken(items: seq<Item>, settings: Settings, outcome: Outcome): seq<Item>
    requires IsCalibration(settings.calibration)
  {
    var compacted := Compacted(items, settings, outcome);
    if compacted.Ok? then compacted.value
    else if settings.capacity.Some? then Trimmed(items, settings.capacity.value) else items
  }

  function ShrinkEvents(items: seq<Item>, settings: Settings, outcome: Outcome): seq<Event>
    requires IsCalibration(settings.calibration)
  {
    var compacted := Compacted(items, settings, outcome);
    (if !PlanFor(items, settings).CutAt? then []
    else if outcome.Summarized? then [CompactionStarted, CompactionCompleted(outcome.hidden)] else [CompactionStarted])
    + (if compacted.Err? then [CompactionFailed(compacted.error)] else [])
  }

  lemma CutBackKeepsWhole(items: seq<Item>, head: nat, first: Item, recent: nat)
    requires Whole(items, head) && recent <= |items| && CutBack(items, recent) > 0
    ensures var k := CutBack(items, recent);
      Whole([first] + items[k..], NewHead(head, k)) && Shrunk(items, head, [first] + items[k..], NewHead(head, k))
  {
    CutBackStops(items, recent);
    CutKeepsWhole(items, head, first, CutBack(items, recent));
  }

  /** However it is shrunk, a conversation keeps the run's own calls and outputs
      together. */
  lemma ShrinkingKeepsWhole(items: seq<Item>, head: nat, settings: Settings, outcome: Outcome) returns (newHead: nat)
    requires IsCalibration(settings.calibration) && Whole(items, head)
    ensures var after := Shrunken(items, settings, outcome);
      Whole(after, newHead) && ((after == items && newHead == head) || Shrunk(items, head, after, newHead))
  {
    newHead := head;
    var plan := PlanFor(items, settings);
    if plan.CutAt? && outcome.Summarized? {
      CutBackKeepsWhole(items, head, CompactionSummary(outcome.text), RecentStart(items, RecentBudget(settings), settings.calibration));
      newHead := NewHead(head, plan.cut);
    } else if Compacted(items, settings, outcome).Err? && settings.capacity.Some? {
      newHead := TrimKeepsWhole(items, head, settings.capacity.value);
    }
  }

  /** Nothing the stream rules look at. */
  predicate AllNeutral(events: seq<Event>) {
    forall k :: 0 <= k < |events| ==> Neutral(events[k])
  }

  lemma NeutralMeans(config: Config, round: nat, events: seq<Event>)
    requires AllNeutral(events)
    ensures AllHarmless(events) && AllRedacted(config, events) && Ran(config, round, events) == []
    ensures NoResults(events)
  {
    forall k | 0 <= k < |events|
      ensures !events[k].ToolStarted? && !events[k].ToolFinished? && Harmless(events[k]) && Redacted(config, events[k])
    {
      assert Neutral(events[k]);
    }
    NothingRan(config, round, events);
  }

  predicate NoResults(events: seq<Event>) {
    forall k :: 0 <= k < |events| ==> !events[k].ToolFinished?
  }

  lemma NothingTold(config: Config, world: World, calls: seq<ToolCall>, executed: set<string>, events: seq<Event>)
    requires NoResults(events)
    ensures Told(config, world, calls, executed, events) && executed == executed + Known(events)
  {
    NothingKnown(events);
  }

  lemma NeutralSnoc(events: seq<Event>, e: Event)
    requires AllNeutral(events) && Neutral(e)
    ensures AllNeutral(events + [e])
  {
  }

  lemma ShrinkEventsAreNeutral(items: seq<Item>, settings: Settings, outcome: Outcome)
    requires IsCalibration(settings.calibration)
    ensures AllNeutral(ShrinkEvents(items, settings, outcome))
  {
  }

  /** Compacts the conversation; if that fails, trims it to the input capacity. */
  method Shrink(items: seq<Item>, settings: Settings, outcome: Outcome) returns (after: seq<Item>, sent: seq<Event>)
    requires IsCalibration(settings.calibration)
    ensures after == Shrunken(items, settings, outcome) && sent == ShrinkEvents(items, settings, outcome)
  {
    var r;
    r, after, sent := CompactContext(items, settings, outcome);
    if r.Err? {
      sent := sent + [CompactionFailed(r.error)];
      if settings.capacity.Some? {
        var trimmed, _ := TrimToBudget(items, settings.capacity.value);
        after := trimmed;
      }
    }
  }

  // ------------------------------------------------------------- ending rounds

  lemma {:induction false} PlainIsBlocks(items: seq<Item>)
    requires forall k :: 0 <= k < |items| ==> Plain(items[k])
    ensures Blocks(items)
  {
    if items != [] {
      PlainIsBlocks(items[1..]);
    }
  }

  lemma {:induction false} CollectedIsBlocks(events: seq<ModelEvent>)
    ensures Blocks(Collected(events))
  {
    if events != [] {
      var n := |events| - 1;
      CollectedIsBlocks(events[..n]);
      PlainIsBlocks(Keeps(Moved(events[..n]), events[n]));
      BlocksConcat(Collected(events[..n]), Keeps(Moved(events[..n]), events[n]));
    }
  }

  lemma CallsAndOutputs(calls: seq<ToolCall>, outputs: seq<Item>)
    requires calls != [] && Answers(outputs, calls)
    ensures Blocks([AssistantToolCalls(calls)] + outputs)
  {
    var items := [AssistantToolCalls(calls)] + outputs;
    assert items[1..1 + |calls|] == outputs && items[1 + |calls|..] == [];
  }

  lemma WholeGrows(items: seq<Item>, head: nat, more: seq<Item>)
    requires Whole(items, head) && Blocks(more)
    ensures Whole(items + more, head)
  {
    assert (items + more)[head..] == items[head..] + more;
    BlocksConcat(items[head..], more);
  }

  /** What a complete model stream came to. */
  datatype Reply = Reply(reasoning: string, text: string, calls: seq<ToolCall>)

  /** The items of the finished reasoning and answer. */
  function Kept(reply: Reply): seq<Item> {
    (if Trim(reply.reasoning) == "" then [] else [ThinkingSummary(Trim(reply.reasoning))])
    + (if reply.text == "" then [] else [Item.Message(Assistant, reply.text)])
  }

  /** The storage failure that stops a reply from being kept. */
  function KeepFault(round: Round, reply: Reply): Option<string> {
    if FailsAt(round, AppendThinking) && Trim(reply.reasoning) != "" then Some(round.fault.value.1)
    else if (FailsAt(round, AppendMessage) || FailsAt(round, ClearPartial)) && reply.text != "" then Some(round.fault.value.1)
    else if FailsAt(round, AppendCalls) && reply.calls != [] then Some(round.fault.value.1)
    else None
  }

  /** Keeps the reasoning, the answer and the calls of a reply. */
  method KeepReply(items: seq<Item>, reply: Reply, round: Round) returns (r: Result<(), string>, after: seq<Item>)
    ensures r == if KeepFault(round, reply).Some? then Err(KeepFault(round, reply).value) else Ok(())
    ensures r.Ok? ==> after == items + Kept(reply) + (if reply.calls == [] then [] else [AssistantToolCalls(reply.calls)])
  {
    var thinking := Trim(reply.reasoning);
    after := items;
    if thinking != "" {
      after := after + [ThinkingSummary(thinking)];
      if FailsAt(round, AppendThinking) {
        return Err(round.fault.value.1), after;
      }
    }
    if reply.text != "" {
      after := after + [Item.Message(Assistant, reply.text)];
      if FailsAt(round, AppendMessage) || FailsAt(round, ClearPartial) {
        return Err(round.fault.value.1), after;
      }
    }
    if reply.calls != [] {
      after := after + [AssistantToolCalls(reply.calls)];
      if FailsAt(round, AppendCalls) {
        return Err(round.fault.value.1), after;
      }
    }
    r := Ok(());
  }

  /** What a round with this reply adds, given the events of its tool calls. */
  function Added(reply: Reply, sent: seq<Event>): seq<Item> {
    Kept(reply) + (if reply.calls == [] then [] else [AssistantToolCalls(reply.calls)] + Outputs(sent))
  }

  lemma AddedIsBlocks(reply: Reply, sent: seq<Event>)
    requires reply.calls != [] ==> Answers(Outputs(sent), reply.calls)
    ensures Blocks(Added(reply, sent))
  {
    PlainIsBlocks(Kept(reply));
    if reply.calls != [] {
      CallsAndOutputs(reply.calls, Outputs(sent));
      BlocksConcat(Kept(reply), [AssistantToolCalls(reply.calls)] + Outputs(sent));
    } else {
      assert Kept(reply) + [] == Kept(reply);
    }
  }

  // ----------------------------------------------------------------- one round

  datatype Next = Again | Over(last: Event)

  function MaxEvent(limits: Limits): nat {
    if limits.maxEventBytes > 1 then limits.maxEventBytes else 1
  }

  function Estimate(items: seq<Item>, settings: Settings): nat
    requires IsCalibration(settings.calibration)
  {
    Calibrated(EstimateTokens(items), settings.calibration)
  }

  /** A retry is granted if shrinking made the estimate smaller; otherwise the
      overflow stands. */
  ghost predicate Recovered(runner: Runner, items: seq<Item>, round: Round, error: string, next: Next, after: seq<Item>, sent: seq<Event>)
    requires IsCalibration(runner.settings.calibration)
  {
    && after == Shrunken(items, runner.settings, round.compaction)
    && sent == ShrinkEvents(items, runner.settings, round.compaction)
      + (if next.Again? then [ProviderRetry("context overflow", 0)] else [])
    && next == (if Estimate(after, runner.settings) >= Estimate(items, runner.settings) then Over(Ending(error))
      else if FailsAt(round, ClearResponseId) then Over(Ending(round.fault.value.1)) else Again)
  }

  /** The item that shrinking puts in the place of the first ones, if any. */
  function Replacement(items: seq<Item>, settings: Settings, outcome: Outcome): (r: Option<(Item, nat)>)
    requires IsCalibration(settings.calibration)
    ensures r.Some? ==> r.value.1 <= |items|
  {
    var compacted := Compacted(items, settings, outcome);
    if compacted.Ok? then
      if PlanFor(items, settings).CutAt? then Some((CompactionSummary(outcome.text), PlanFor(items, settings).cut)) else None
    else if settings.capacity.Some? then
      TrimmedIs(items, settings.capacity.value);
      var k := |items| - |TrimmedRest(items, settings.capacity.value)|;
      if k > 0 then Some((TrimNote(k), k)) else None
    else None
  }

  lemma ShrunkenIs(items: seq<Item>, settings: Settings, outcome: Outcome)
    requires IsCalibration(settings.calibration)
    ensures var r := Replacement(items, settings, outcome);
      Shrunken(items, settings, outcome) == if r.Some? then Replaced(items, r.value.0, r.value.1) else items
  {
    if Compacted(items, settings, outcome).Err? && settings.capacity.Some? {
      TrimmedIs(items, settings.capacity.value);
    }
  }

  /** The exact condition for a retry: something was replaced, and at the
      calibration the tokens of the new item and what was kept are fewer. */
  lemma RetryIsGrantedIff(items: seq<Item>, settings: Settings, outcome: Outcome)
    requires IsCalibration(settings.calibration)
    ensures var r := Replacement(items, settings, outcome);
      Estimate(Shrunken(items, settings, outcome), settings) < Estimate(items, settings) <==>
        r.Some? && CalibratedPays(items, r.value.0, r.value.1, settings.calibration)
    ensures var r := Replacement(items, settings, outcome);
      r.Some? && CalibratedPays(items, r.value.0, r.value.1, settings.calibration) ==>
        ItemBytes(r.value.0) < ConversationBytes(items[..r.value.1])
  {
    ShrunkenIs(items, settings, outcome);
    var r := Replacement(items, settings, outcome);
    if r.Some? {
      ReplacedEstimate(items, r.value.0, r.value.1, settings);
      CalibratedPaysMeans(items, r.value.0, r.value.1, settings.calibration);
    }
  }

  lemma ReplacedEstimate(items: seq<Item>, first: Item, k: nat, settings: Settings)
    requires k <= |items| && IsCalibration(settings.calibration)
    ensures Estimate(Replaced(items, first, k), settings) < Estimate(items, settings) <==>
      CalibratedPays(items, first, k, settings.calibration)
  {
    ReplacedBytes(items, first, k);
  }

  /** After a context overflow: shrinks the conversation, compares, decides. */
  method Recover(runner: Runner, items: seq<Item>, round: Round, error: string)
    returns (next: Next, after: seq<Item>, sent: seq<Event>)
    requires IsCalibration(runner.settings.calibration)
    ensures Recovered(runner, items, round, error, next, after, sent) && AllNeutral(sent)
  {
    var before := Estimate(items, runner.settings);
    after, sent := Shrink(items, runner.settings, round.compaction);
    ShrinkEventsAreNeutral(items, runner.settings, round.compaction);
    assert sent + [] == sent;
    if Estimate(after, runner.settings) >= before {
      return Over(Ending(error)), after, sent;
    }
    if FailsAt(round, ClearResponseId) {
      return Over(Ending(round.fault.value.1)), after, sent;
    }
    NeutralSnoc(sent, ProviderRetry("context overflow", 0));
    sent := sent + [ProviderRetry("context overflow", 0)];
    next := Again;
  }

  /** How the loop goes on from `s`: `grown` is the conversation before any
      shrinking. */
  ghost predicate GoesOn(runner: Runner, s: Tools, head: nat, retries: nat, t: Tools, grown: seq<Item>, newHead: nat, tried: nat)
    requires IsCalibration(runner.settings.calibration)
  {
    && s.items <= grown && Whole(grown, head) && Whole(t.items, newHead)
    && if tried == retries then t.items == grown && newHead == head
      else
        && tried == retries + 1
        && Shrunk(grown, head, t.items, newHead) && Estimate(t.items, runner.settings) < Estimate(grown, runner.settings)
  }

  const INCOMPLETE := "model stream ended without completion"

  /** After a complete model stream: keeps the reply and carries out its calls.
      The run completes when there are none. */
  method FinishRound(config: Config, s: Tools, reply: Reply, round: Round, n: nat)
    returns (next: Next, t: Tools, tail: seq<Event>)
    requires NoRepeat(s.log) && Remembered(s.log, s.executed, [], n)
    ensures Replied(s.items, reply, round, next, t.items, tail)
    ensures AllHarmless(tail) && AllRedacted(config, tail) && NoRepeat(t.log) && t.log == s.log + Ran(config, n, tail)
    ensures Told(config, round.world, reply.calls, s.executed, tail)
    ensures next.Again? ==> Blocks(Added(reply, tail)) && Remembered(t.log, t.executed, [], n) && t.executed == s.executed + Known(tail)
    ensures next.Again? ==> Answers(Outputs(tail), reply.calls)
    ensures next == Over(Completed) ==> Blocks(Added(reply, tail))
  {
    t, tail := s, [];
    assert s.log + Ran(config, n, []) == s.log;
    NothingTold(config, round.world, reply.calls, s.executed, []);
    var kept, items := KeepReply(s.items, reply, round);
    t := t.(items := items);
    if kept.Err? {
      return Over(Ending(kept.error)), t, tail;
    }
    if reply.calls == [] {
      AddedIsBlocks(reply, []);
      return Over(Completed), t, tail;
    }
    var done;
    done, t, tail := DispatchAll(config, t, reply.calls, round.world, n);
    Assoc(s.items, Kept(reply), [AssistantToolCalls(reply.calls)]);
    Assoc(s.items + Kept(reply), [AssistantToolCalls(reply.calls)], Outputs(tail));
    Assoc(s.items, Kept(reply), [AssistantToolCalls(reply.calls)] + Outputs(tail));
    if done.Err? {
      return Over(Ending(done.error)), t, tail;
    }
    AddedIsBlocks(reply, tail);
    next := Again;
  }

  /** How a round that was replied to ends. */
  ghost predicate Replied(items: seq<Item>, reply: Reply, round: Round, next: Next, after: seq<Item>, tail: seq<Event>) {
    var fault := KeepFault(round, reply);
    if fault.Some? then next == Over(Ending(fault.value)) && tail == []
    else
      && after == items + Added(reply, tail)
      && if reply.calls == [] then next == Over(Completed) && tail == []
        else next.Again? || ToolTrouble(round.world, next.last)
  }

  ghost predicate ToolTrouble(world: World, last: Event) {
    exists error :: Troubled(world, error) && last == Ending(error)
  }

  /** Streams one model answer through a fresh collector. */
  method ModelRound(limits: Limits, round: Round)
    returns (end: RoundEnd, reply: Option<Reply>, items: seq<Item>, emitted: seq<Event>, ghost delivered: seq<ModelEvent>)
    ensures EndsAs(round.stream, delivered, end)
    ensures items == Collected(if end.HandlerFailed? then round.stream.events[..|delivered| + 1] else delivered)
    ensures emitted == Emitted(delivered, MaxEvent(limits))
    ensures reply.Some? ==> end.Finished? && ReplyOf(limits, round, delivered, reply.value)
    ensures end.Finished? && reply.None? ==> Unparsed(round, delivered)
  {
    var collector := new StreamCollector(
      Some(limits.maxResponseBytes), limits.maxToolCallBytes, limits.maxToolCallTotalBytes, limits.maxToolCalls);
    NothingJoined();
    end, items, emitted, delivered := StreamOnce(round.stream, collector, limits.maxEventBytes);
    reply := None;
    if end.Finished? {
      reply := TakeReply(limits, collector, round, delivered);
    }
  }

  /** Makes the reply of a finished stream, unless some arguments do not parse. */
  method TakeReply(limits: Limits, collector: StreamCollector, round: Round, ghost delivered: seq<ModelEvent>)
    returns (reply: Option<Reply>)
    requires Holds(collector, delivered) && collector.maxToolCalls == limits.maxToolCalls
    modifies collector
    ensures reply.Some? ==> ReplyOf(limits, round, delivered, reply.value)
    ensures reply.None? ==> Unparsed(round, delivered)
  {
    ghost var partials := collector.partials;
    var finished, order := collector.FinishPartials(round.parse, round.freshId);
    if finished.Err? {
      UnparsableIs(round, delivered, partials);
      return None;
    }
    RemainingAreMade(round, delivered, partials, order);
    reply := Some(Reply(collector.reasoningText, collector.assistantText, collector.completedCalls));
  }

  /** Some slot asks for a call with arguments that are not JSON. */
  ghost predicate Unparsed(round: Round, delivered: seq<ModelEvent>) {
    exists slot, from :: UnparsedFrom(round, delivered, slot, from)
  }

  ghost predicate UnparsedFrom(round: Round, delivered: seq<ModelEvent>, slot: string, from: nat) {
    && from <= |delivered| && Begins(delivered, slot, from) && Asks(delivered[from..], slot, IdsOf(delivered))
    && var arguments := ArgumentsOf(delivered[from..], slot);
    round.parse(if arguments == "" then "{}" else arguments).None?
  }

  lemma UnparsableIs(round: Round, delivered: seq<ModelEvent>, partials: map<string, Partial>)
    requires Joined(delivered, partials) && Unparsable(partials, IdsOf(delivered), round.parse)
    ensures Unparsed(round, delivered)
  {
    var slot :| slot in partials && Named(partials[slot], IdsOf(delivered)) && round.parse(Arguments(partials[slot])).None?;
    assert JoinedSlot(delivered, partials, slot);
    var from :| JoinedFrom(delivered, partials, slot, from);
    assert UnparsedFrom(round, delivered, slot, from);
  }

  lemma RemainingAreMade(round: Round, delivered: seq<ModelEvent>, partials: map<string, Partial>, order: seq<string>)
    requires Joined(delivered, partials) && Converted(partials, map[], order, IdsOf(delivered), true)
    requires Parsed(partials, order, round.parse)
    ensures CallsOwed(round, delivered, CallsOf(delivered) + StreamCollecting.Finished(partials, order, round.parse, round.freshId))
  {
    FinishedAreMade(delivered, partials, order, round.parse, round.freshId);
    assert CallsMade(round, delivered, CallsOf(delivered) + StreamCollecting.Finished(partials, order, round.parse, round.freshId),
                     order, StreamCollecting.Finished(partials, order, round.parse, round.freshId));
  }

  /** The reply is what was delivered: all the text, the newest reasoning, the
      complete calls, and behind them the calls that the remaining slots ask for. */
  ghost predicate ReplyOf(limits: Limits, round: Round, delivered: seq<ModelEvent>, reply: Reply) {
    && reply.text == TextOf(delivered)
    && reply.reasoning == Bounded.Newest(ReasoningOf(delivered), Utf8.CharBytes, MAX_REASONING_BYTES, MAX_REASONING_BYTES)
    && |reply.calls| <= limits.maxToolCalls
    && CallsOwed(round, delivered, reply.calls)
  }

  ghost predicate CallsOwed(round: Round, delivered: seq<ModelEvent>, calls: seq<ToolCall>) {
    exists order, made :: CallsMade(round, delivered, calls, order, made)
  }

  ghost predicate CallsMade(round: Round, delivered: seq<ModelEvent>, calls: seq<ToolCall>, order: seq<string>, made: seq<ToolCall>) {
    calls == CallsOf(delivered) + made && MadeOf(delivered, made, order, round.parse, round.freshId)
  }

  /** How a pass of the loop ends, told from how its model stream ended. */
  ghost predicate Concluded(runner: Runner, items: seq<Item>, retries: nat, round: Round, end: RoundEnd, reply: Option<Reply>,
                            next: Next, after: seq<Item>, tail: seq<Event>)
    requires IsCalibration(runner.settings.calibration)
  {
    match end
    case Refused(limit) => next == Over(Ending(RefusalText(limit))) && tail == []
    case HandlerFailed(error) => next == Over(Ending(error)) && tail == []
    case EndedWithoutCompletion => next == Over(Ending(INCOMPLETE)) && tail == []
    case ProviderFailed(overflow, error) =>
      if overflow && retries < runner.settings.maxRetries then Recovered(runner, items, round, error, next, after, tail)
      else next == Over(Ending(error)) && tail == []
    case Finished =>
      if reply.None? then next == Over(Ending(RefusalText(InvalidArguments))) && tail == []
      else Replied(items, reply.value, round, next, after, tail)
  }

  /** The calls that a pass carries out. */
  function CallsAsked(reply: Option<Reply>): seq<ToolCall> {
    if reply.Some? then reply.value.calls else []
  }

  method Retry(runner: Runner, items: seq<Item>, round: Round, error: string, ghost n: nat, ghost head: nat)
    returns (next: Next, after: seq<Item>, sent: seq<Event>, ghost newHead: nat)
    requires IsCalibration(runner.settings.calibration) && Whole(items, head)
    ensures Recovered(runner, items, round, error, next, after, sent)
    ensures AllHarmless(sent) && AllRedacted(runner.config, sent) && Ran(runner.config, n, sent) == [] && (next.Over? ==> Conformance.IsTerminal(next.last))
    ensures NoResults(sent)
    ensures next.Again? ==> Whole(after, newHead) && Shrunk(items, head, after, newHead)
    ensures next.Again? ==> Estimate(after, runner.settings) < Estimate(items, runner.settings)
  {
    next, after, sent := Recover(runner, items, round, error);
    NeutralMeans(runner.config, n, sent);
    newHead := ShrinkingKeepsWhole(items, head, runner.settings, round.compaction);
  }

  lemma ReceivedIsWhole(items: seq<Item>, head: nat, delivered: seq<ModelEvent>)
    requires Whole(items, head)
    ensures Whole(items + Collected(delivered), head)
  {
    CollectedIsBlocks(delivered);
    WholeGrows(items, head, Collected(delivered));
  }

  /** After a failed storage call the conversation plays no part any more. */
  lemma ConcludedAfter(runner: Runner, items: seq<Item>, others: seq<Item>, retries: nat, round: Round, end: RoundEnd, reply: Option<Reply>,
                       next: Next, after: seq<Item>, tail: seq<Event>)
    requires IsCalibration(runner.settings.calibration) && (end.HandlerFailed? || others == items)
    requires Concluded(runner, items, retries, round, end, reply, next, after, tail)
    ensures Concluded(runner, others, retries, round, end, reply, next, after, tail)
  {
  }

  lemma GoesOnFrom(runner: Runner, s: Tools, received: Tools, head: nat, retries: nat, t: Tools, grown: seq<Item>, newHead: nat, tried: nat)
    requires IsCalibration(runner.settings.calibration) && s.items <= received.items
    requires GoesOn(runner, received, head, retries, t, grown, newHead, tried)
    ensures GoesOn(runner, s, head, retries, t, grown, newHead, tried)
  {
  }

  /** One pass of the loop: a model round and the calls it asks for. `grown` is
      the conversation before any shrinking. */
  method RunRound(runner: Runner, s: Tools, retries: nat, round: Round, n: nat, ghost head: nat)
    returns (next: Next, t: Tools, tried: nat, emitted: seq<Event>, tail: seq<Event>, ghost delivered: seq<ModelEvent>,
             ghost end: RoundEnd, ghost reply: Option<Reply>, ghost grown: seq<Item>, ghost newHead: nat)
    requires IsCalibration(runner.settings.calibration) && Whole(s.items, head) && retries <= runner.settings.maxRetries
    requires NoRepeat(s.log) && Remembered(s.log, s.executed, [], n)
    ensures EndsAs(round.stream, delivered, end) && emitted == Emitted(delivered, MaxEvent(runner.limits))
    ensures reply.Some? ==> end.Finished? && ReplyOf(runner.limits, round, delivered, reply.value)
    ensures Concluded(runner, s.items + Collected(delivered), retries, round, end, reply, next, t.items, tail)
    ensures AllHarmless(tail) && AllRedacted(runner.config, tail) && NoRepeat(t.log) && t.log == s.log + Ran(runner.config, n, tail)
    ensures tried <= runner.settings.maxRetries
    ensures next.Over? ==> Conformance.IsTerminal(next.last)
    ensures Told(runner.config, round.world, CallsAsked(reply), s.executed, tail)
    ensures next.Again? ==>
      && GoesOn(runner, s, head, retries, t, grown, newHead, tried) && Remembered(t.log, t.executed, [], n + 1)
      && t.executed == s.executed + Known(tail) && (reply.Some? ==> tried == retries && Answers(Outputs(tail), reply.value.calls))
    ensures next == Over(Completed) ==> s.items <= t.items && Whole(t.items, head)
  {
    var how, answer, items;
    how, answer, items, emitted, delivered := ModelRound(runner.limits, round);
    end, reply := how, answer;
    ReceivedIsWhole(s.items, head, if how.HandlerFailed? then round.stream.events[..|delivered| + 1] else delivered);
    var received := s.(items := s.items + items);
    next, t, tried, tail, grown, newHead := Resolve(runner, received, retries, round, n, how, answer, head);
    ConcludedAfter(runner, received.items, s.items + Collected(delivered), retries, round, how, answer, next, t.items, tail);
    if next.Again? {
      GoesOnFrom(runner, s, received, head, retries, t, grown, newHead, tried);
    }
  }

  /** What follows a finished stream. */
  method AfterReply(runner: Runner, s: Tools, round: Round, n: nat, reply: Reply, ghost retries: nat, ghost head: nat)
    returns (next: Next, t: Tools, tail: seq<Event>)
    requires IsCalibration(runner.settings.calibration) && Whole(s.items, head)
    requires NoRepeat(s.log) && Remembered(s.log, s.executed, [], n)
    ensures Replied(s.items, reply, round, next, t.items, tail)
    ensures AllHarmless(tail) && AllRedacted(runner.config, tail) && NoRepeat(t.log) && t.log == s.log + Ran(runner.config, n, tail)
    ensures next.Over? ==> Conformance.IsTerminal(next.last)
    ensures Told(runner.config, round.world, reply.calls, s.executed, tail)
    ensures next.Again? ==>
      && GoesOn(runner, s, head, retries, t, t.items, head, retries) && Remembered(t.log, t.executed, [], n + 1)
      && t.executed == s.executed + Known(tail) && Answers(Outputs(tail), reply.calls)
    ensures next == Over(Completed) ==> s.items <= t.items && Whole(t.items, head)
  {
    next, t, tail := FinishRound(runner.config, s, reply, round, n);
    FinishedIsWhole(s.items, head, reply, round, next, t.items, tail);
  }

  /** What follows an error of the provider: a retry if the context overflowed. */
  method AfterFailure(runner: Runner, s: Tools, retries: nat, round: Round, n: nat, overflow: bool, error: string, ghost head: nat)
    returns (next: Next, t: Tools, tried: nat, tail: seq<Event>, ghost newHead: nat)
    requires IsCalibration(runner.settings.calibration) && Whole(s.items, head) && retries <= runner.settings.maxRetries
    ensures if overflow && retries < runner.settings.maxRetries then Recovered(runner, s.items, round, error, next, t.items, tail)
      else next == Over(Ending(error)) && tail == []
    ensures AllHarmless(tail) && AllRedacted(runner.config, tail) && NoResults(tail) && Ran(runner.config, n, tail) == []
    ensures t == s.(items := t.items) && tried <= runner.settings.maxRetries
    ensures next.Over? ==> Conformance.IsTerminal(next.last) && next.last != Completed
    ensures next.Again? ==> GoesOn(runner, s, head, retries, t, s.items, newHead, tried)
  {
    t, tried, tail, newHead := s, retries, [], head;
    if overflow && retries < runner.settings.maxRetries {
      var items;
      next, items, tail, newHead := Retry(runner, s.items, round, error, n, head);
      t, tried := s.(items := items), if next.Again? then retries + 1 else retries;
    } else {
      next := Over(Ending(error));
    }
  }

  /** What follows a model stream, by how it ended. */
  method Resolve(runner: Runner, s: Tools, retries: nat, round: Round, n: nat, end: RoundEnd, reply: Option<Reply>, ghost head: nat)
    returns (next: Next, t: Tools, tried: nat, tail: seq<Event>, ghost grown: seq<Item>, ghost newHead: nat)
    requires IsCalibration(runner.settings.calibration) && Whole(s.items, head) && retries <= runner.settings.maxRetries
    requires NoRepeat(s.log) && Remembered(s.log, s.executed, [], n) && (reply.Some? ==> end.Finished?)
    ensures Concluded(runner, s.items, retries, round, end, reply, next, t.items, tail)
    ensures AllHarmless(tail) && AllRedacted(runner.config, tail) && NoRepeat(t.log) && t.log == s.log + Ran(runner.config, n, tail)
    ensures tried <= runner.settings.maxRetries
    ensures next.Over? ==> Conformance.IsTerminal(next.last)
    ensures Told(runner.config, round.world, CallsAsked(reply), s.executed, tail)
    ensures next.Again? ==>
      && GoesOn(runner, s, head, retries, t, grown, newHead, tried) && Remembered(t.log, t.executed, [], n + 1)
      && t.executed == s.executed + Known(tail) && (reply.Some? ==> tried == retries && Answers(Outputs(tail), reply.value.calls))
    ensures next == Over(Completed) ==> s.items <= t.items && Whole(t.items, head)
  {
    t, tried, tail, newHead, grown := s, retries, [], head, s.items;
    assert s.log + Ran(runner.config, n, []) == s.log;
    NothingTold(runner.config, round.world, [], s.executed, []);
    match end {
      case Refused(limit) =>
        next := Over(Ending(RefusalText(limit)));
      case HandlerFailed(error) =>
        next := Over(Ending(error));
      case EndedWithoutCompletion =>
        next := Over(Ending(INCOMPLETE));
      case ProviderFailed(overflow, error) =>
        next, t, tried, tail, newHead := AfterFailure(runner, s, retries, round, n, overflow, error, head);
        NothingTold(runner.config, round.world, [], s.executed, tail);
        assert s.log + [] == s.log;
      case Finished =>
        if reply.None? {
          next := Over(Ending(RefusalText(InvalidArguments)));
        } else {
          next, t, tail := AfterReply(runner, s, round, n, reply.value, retries, head);
          grown := t.items;
        }
    }
  }

  lemma FinishedIsWhole(items: seq<Item>, head: nat, reply: Reply, round: Round, next: Next, after: seq<Item>, tail: seq<Event>)
    requires Whole(items, head) && Replied(items, reply, round, next, after, tail)
    requires next.Again? || next == Over(Completed) ==> Blocks(Added(reply, tail))
    ensures next.Again? || next == Over(Completed) ==> items <= after && Whole(after, head)
  {
    if next.Again? || next == Over(Completed) {
      WholeGrows(items, head, Added(reply, tail));
    }
  }

  // -------------------------------------------------------------- a whole run

  /** One pass of a run: the conversation at the loop head, where in it the
      run's own part begins, the calls known by then, the request, what was
      delivered, what was sent after it, and how the pass ended. */
  datatype Pass = Pass(
    history: seq<Item>, head: nat, executed: set<string>, request: seq<Item>, retries: nat, delivered: seq<ModelEvent>,
    tail: seq<Event>, end: RoundEnd, reply: Option<Reply>, next: Next, after: seq<Item>)

  function Request(runner: Runner, items: seq<Item>): seq<Item> {
    [Item.Message(System, runner.systemPrompt)] + ReplaySafe(items)
  }

  /** Nothing of a history is lost between loop heads, except at the front. */
  ghost predicate Follows(items: seq<Item>, head: nat, next: seq<Item>, newHead: nat) {
    exists grown: seq<Item> ::
      items <= grown && ((next == grown && newHead == head) || Shrunk(grown, head, next, newHead))
  }

  /** What holds of a pass by itself. */
  ghost predicate PassOk(runner: Runner, round: Round, p: Pass)
    requires IsCalibration(runner.settings.calibration)
  {
    && p.request == Request(runner, p.history) && Whole(p.history, p.head) && AllHarmless(p.tail) && AllRedacted(runner.config, p.tail)
    && EndsAs(round.stream, p.delivered, p.end) && (p.reply.Some? ==> ReplyOf(runner.limits, round, p.delivered, p.reply.value))
    && Concluded(runner, p.history + Collected(p.delivered), p.retries, round, p.end, p.reply, p.next, p.after, p.tail)
    && Told(runner.config, round.world, CallsAsked(p.reply), p.executed, p.tail)
    && (p.reply.Some? ==> p.end.Finished? && (p.next.Again? ==> Answers(Outputs(p.tail), p.reply.value.calls)))
    && (p.next.Over? ==> Conformance.IsTerminal(p.next.last))
    && (p.next == Over(Completed) ==> p.history <= p.after && Whole(p.after, p.head))
  }

  /** Pass `q` comes right after `p`. */
  ghost predicate Linked(p: Pass, q: Pass) {
    p.next.Again? && Succeeds(p, q.history, q.executed, q.head, q.retries)
  }

  /** What follows the pass: only after an overflow, and a retry, has anything
      been taken away. */
  ghost predicate Succeeds(p: Pass, items: seq<Item>, executed: set<string>, head: nat, retries: nat) {
    && items == p.after && Follows(p.history, p.head, items, head) && executed == p.executed + Known(p.tail)
    && p.retries <= retries <= p.retries + 1
    && (p.reply.Some? ==> retries == p.retries)
    && (retries == p.retries ==> p.history <= items && head == p.head)
  }

  ghost predicate AllOk(runner: Runner, rounds: seq<Round>, passes: seq<Pass>)
    requires IsCalibration(runner.settings.calibration)
  {
    |passes| <= |rounds| && (passes == [] || (
      var n := |passes| - 1;
      AllOk(runner, rounds, passes[..n]) && PassOk(runner, rounds[n], passes[n])))
  }

  ghost predicate AllLinked(passes: seq<Pass>) {
    forall k :: 0 < k < |passes| ==> Linked(passes[k - 1], passes[k])
  }

  ghost predicate Traced(runner: Runner, rounds: seq<Round>, start: seq<Item>, passes: seq<Pass>)
    requires IsCalibration(runner.settings.calibration)
  {
    && AllOk(runner, rounds, passes) && AllLinked(passes)
    && (passes != [] ==> passes[0].history == start && passes[0].head == |start| && passes[0].executed == {} && passes[0].retries == 0)
  }

  function Deliveries(passes: seq<Pass>): (r: seq<seq<ModelEvent>>)
    ensures |r| == |passes|
  {
    if passes == [] then [] else Deliveries(passes[..|passes| - 1]) + [passes[|passes| - 1].delivered]
  }

  function Tails(passes: seq<Pass>): (r: seq<seq<Event>>)
    ensures |r| == |passes|
  {
    if passes == [] then [] else Tails(passes[..|passes| - 1]) + [passes[|passes| - 1].tail]
  }

  /** What the events of all passes say was run. */
  function RunLog(config: Config, passes: seq<Pass>): seq<Execution> {
    if passes == [] then []
    else
      var n := |passes| - 1;
      RunLog(config, passes[..n]) + Ran(config, n, passes[n].tail)
  }

  /** The last event of a run, unless it is still going on. */
  function Last(passes: seq<Pass>): seq<Event> {
    if passes == [] || passes[|passes| - 1].next.Again? then [] else [passes[|passes| - 1].next.last]
  }

  /** All events of a run: those of `before`, those of the passes, the last. */
  function AllSent(runner: Runner, before: seq<Event>, passes: seq<Pass>): seq<Event> {
    before + Stream(Deliveries(passes), Tails(passes), MaxEvent(runner.limits)) + Last(passes)
  }

  /** The conversation when the passes are over. */
  function Final(start: seq<Item>, passes: seq<Pass>): seq<Item> {
    if passes == [] then start else passes[|passes| - 1].after
  }

  /** The loop after `passes`, with `t` and `head` for the next one. */
  ghost predicate Running(runner: Runner, rounds: seq<Round>, start: seq<Item>, passes: seq<Pass>, t: Tools, head: nat, retries: nat)
    requires IsCalibration(runner.settings.calibration)
  {
    && Traced(runner, rounds, start, passes)
    && t.items == Final(start, passes) && t.log == RunLog(runner.config, passes) && NoRepeat(t.log)
    && (Last(passes) == [] ==> Ready(start, passes, t.items, t.executed, head, retries) && Remembered(t.log, t.executed, [], |passes|))
  }

  /** What the next pass may rely on. */
  ghost predicate Ready(start: seq<Item>, passes: seq<Pass>, items: seq<Item>, executed: set<string>, head: nat, retries: nat) {
    && Whole(items, head)
    && if passes == [] then items == start && executed == {} && head == |start| && retries == 0
      else passes[|passes| - 1].next.Again? && Succeeds(passes[|passes| - 1], items, executed, head, retries)
  }

  lemma RunStarts(runner: Runner, rounds: seq<Round>, start: seq<Item>)
    requires IsCalibration(runner.settings.calibration)
    ensures Running(runner, rounds, start, [], Tools(start, {}, []), |start|, 0)
  {
    assert start[|start|..] == [];
  }

  lemma {:induction false} OkAt(runner: Runner, rounds: seq<Round>, passes: seq<Pass>, k: nat)
    requires IsCalibration(runner.settings.calibration) && AllOk(runner, rounds, passes) && k < |passes|
    ensures PassOk(runner, rounds[k], passes[k])
    decreases |passes|
  {
    if k < |passes| - 1 {
      OkAt(runner, rounds, passes[..|passes| - 1], k);
    }
  }

  lemma AllOkGrows(runner: Runner, rounds: seq<Round>, passes: seq<Pass>, p: Pass)
    requires IsCalibration(runner.settings.calibration) && AllOk(runner, rounds, passes) && |passes| < |rounds|
    requires PassOk(runner, rounds[|passes|], p)
    ensures AllOk(runner, rounds, passes + [p])
  {
    var more := passes + [p];
    assert more[..|passes|] == passes && more[|passes|] == p;
    OkSnoc(runner, rounds, more, |passes|);
  }

  lemma OkSnoc(runner: Runner, rounds: seq<Round>, passes: seq<Pass>, n: nat)
    requires IsCalibration(runner.settings.calibration) && |passes| == n + 1 <= |rounds|
    requires AllOk(runner, rounds, passes[..n]) && PassOk(runner, rounds[n], passes[n])
    ensures AllOk(runner, rounds, passes)
  {
  }

  lemma AllLinkedGrows(passes: seq<Pass>, p: Pass)
    requires AllLinked(passes) && (passes != [] ==> Linked(passes[|passes| - 1], p))
    ensures AllLinked(passes + [p])
  {
    var more := passes + [p];
    forall k | 0 < k < |more| ensures Linked(more[k - 1], more[k]) {
      assert more[k - 1] == passes[k - 1] && more[k] == if k < |passes| then passes[k] else p;
    }
  }

  lemma TraceGrows(runner: Runner, rounds: seq<Round>, start: seq<Item>, passes: seq<Pass>, p: Pass)
    requires IsCalibration(runner.settings.calibration) && Traced(runner, rounds, start, passes) && |passes| < |rounds|
    requires PassOk(runner, rounds[|passes|], p) && Ready(start, passes, p.history, p.executed, p.head, p.retries)
    ensures Traced(runner, rounds, start, passes + [p])
  {
    AllOkGrows(runner, rounds, passes, p);
    AllLinkedGrows(passes, p);
    assert (passes + [p])[0] == if passes == [] then p else passes[0];
  }

  lemma NextIsReady(runner: Runner, s: Tools, retries: nat, t: Tools, grown: seq<Item>, newHead: nat, tried: nat,
                    start: seq<Item>, passes: seq<Pass>, p: Pass)
    requires IsCalibration(runner.settings.calibration) && GoesOn(runner, s, p.head, retries, t, grown, newHead, tried)
    requires p.next.Again? && p.history == s.items && p.executed == s.executed && p.retries == retries && p.after == t.items
    requires t.executed == s.executed + Known(p.tail) && (p.reply.Some? ==> tried == retries)
    ensures Ready(start, passes + [p], t.items, t.executed, newHead, tried)
  {
    FollowsBy(s.items, p.head, grown, t.items, newHead);
    assert (passes + [p])[|passes|] == p;
  }

  lemma FollowsBy(items: seq<Item>, head: nat, grown: seq<Item>, next: seq<Item>, newHead: nat)
    requires items <= grown && ((next == grown && newHead == head) || Shrunk(grown, head, next, newHead))
    ensures Follows(items, head, next, newHead)
  {
  }

  lemma LogGrows(config: Config, passes: seq<Pass>, p: Pass)
    ensures RunLog(config, passes + [p]) == RunLog(config, passes) + Ran(config, |passes|, p.tail)
  {
    assert (passes + [p])[..|passes|] == passes;
  }

  lemma SentGrows(runner: Runner, before: seq<Event>, passes: seq<Pass>, p: Pass)
    requires Last(passes) == []
    ensures AllSent(runner, before, passes + [p]) == AllSent(runner, before, passes)
      + ([ModelStreaming] + Emitted(p.delivered, MaxEvent(runner.limits)) + p.tail) + Last([p])
  {
    var max := MaxEvent(runner.limits);
    assert (passes + [p])[..|passes|] == passes;
    StreamGrows(before, Deliveries(passes), Tails(passes), p.delivered, p.tail, max);
    assert AllSent(runner, before, passes) == before + Stream(Deliveries(passes), Tails(passes), max);
  }

  lemma StreamGrows(before: seq<Event>, delivered: seq<seq<ModelEvent>>, tails: seq<seq<Event>>, events: seq<ModelEvent>,
                    tail: seq<Event>, max: nat)
    requires |delivered| == |tails|
    ensures before + Stream(delivered + [events], tails + [tail], max)
      == before + Stream(delivered, tails, max) + ([ModelStreaming] + Emitted(events, max) + tail)
  {
    assert (delivered + [events])[..|delivered|] == delivered && (tails + [tail])[..|tails|] == tails;
    Assoc(before, Stream(delivered, tails, max), [ModelStreaming] + Emitted(events, max) + tail);
  }

  /** The loop body. */
  method NextRound(runner: Runner, rounds: seq<Round>, n: nat, s: Tools, retries: nat, ghost start: seq<Item>,
                   ghost passes: seq<Pass>, ghost head: nat)
    returns (next: Next, t: Tools, tried: nat, sent: seq<Event>, ghost p: Pass, ghost newHead: nat)
    requires IsCalibration(runner.settings.calibration) && n == |passes| < |rounds| && retries <= runner.settings.maxRetries
    requires Running(runner, rounds, start, passes, s, head, retries) && Last(passes) == []
    ensures Running(runner, rounds, start, passes + [p], t, newHead, tried) && tried <= runner.settings.maxRetries
    ensures p.next == next && sent == [ModelStreaming] + Emitted(p.delivered, MaxEvent(runner.limits)) + p.tail
    ensures Last(passes + [p]) == Last([p]) == if next.Over? then [next.last] else []
  {
    var emitted, tail;
    ghost var delivered, end, reply, grown;
    next, t, tried, emitted, tail, delivered, end, reply, grown, newHead := RunRound(runner, s, retries, rounds[n], n, head);
    p := Pass(s.items, head, s.executed, Request(runner, s.items), retries, delivered, tail, end, reply, next, t.items);
    TraceGrows(runner, rounds, start, passes, p);
    LogGrows(runner.config, passes, p);
    if next.Again? {
      NextIsReady(runner, s, retries, t, grown, newHead, tried, start, passes, p);
    }
    sent := [ModelStreaming] + emitted + tail;
  }

  /** `run`: `first` is the compaction that the usage meter may ask for before
      the loop. A run that has used up `rounds` is still going on. */
  method Run(runner: Runner, items: seq<Item>, first: Option<Outcome>, rounds: seq<Round>)
    returns (sent: seq<Event>, after: seq<Item>, log: seq<Execution>, retries: nat, ghost passes: seq<Pass>)
    requires IsCalibration(runner.settings.calibration)
    ensures Traced(runner, rounds, Begun(runner, items, first), passes)
    ensures sent == AllSent(runner, Preamble(runner, items, first), passes)
    ensures after == Final(Begun(runner, items, first), passes)
    ensures Last(passes) == [] ==> |passes| == |rounds|
    ensures log == RunLog(runner.config, passes) && NoRepeat(log)
    ensures retries <= runner.settings.maxRetries
  {
    var start, before := items, [];
    if first.Some? {
      start, before := Shrink(items, runner.settings, first.value);
    }
    sent, after, log, retries, passes := RunPasses(runner, rounds, start, before);
  }

  /** The loop. */
  method RunPasses(runner: Runner, rounds: seq<Round>, start: seq<Item>, before: seq<Event>)
    returns (sent: seq<Event>, after: seq<Item>, log: seq<Execution>, retries: nat, ghost passes: seq<Pass>)
    requires IsCalibration(runner.settings.calibration)
    ensures Traced(runner, rounds, start, passes) && sent == AllSent(runner, before, passes) && after == Final(start, passes)
    ensures Last(passes) == [] ==> |passes| == |rounds|
    ensures log == RunLog(runner.config, passes) && NoRepeat(log)
    ensures retries <= runner.settings.maxRetries
  {
    sent, retries, passes := before, 0, [];
    RunStarts(runner, rounds, start);
    assert before + Stream([], [], MaxEvent(runner.limits)) + [] == before;
    var t := Tools(start, {}, []);
    ghost var head: nat := |start|;
    var n, over := 0, false;
    while n < |rounds| && !over
      invariant n == |passes| <= |rounds| && Running(runner, rounds, start, passes, t, head, retries)
      invariant retries <= runner.settings.maxRetries
      invariant over <==> Last(passes) != []
      invariant sent == AllSent(runner, before, passes)
      decreases |rounds| - n
    {
      var next, u, tried, more;
      ghost var p, newHead;
      next, u, tried, more, p, newHead := NextRound(runner, rounds, n, t, retries, start, passes, head);
      SentGrows(runner, before, passes, p);
      passes := passes + [p];
      over := next.Over?;
      sent := sent + more + (if over then [next.last] else []);
      t, retries, n, head := u, tried, n + 1, newHead;
    }
    after, log := t.items, t.log;
  }

  /** What the loop starts from, and what was sent before it. */
  function Begun(runner: Runner, items: seq<Item>, first: Option<Outcome>): seq<Item>
    requires IsCalibration(runner.settings.calibration)
  {
    if first.Some? then Shrunken(items, runner.settings, first.value) else items
  }

  function Preamble(runner: Runner, items: seq<Item>, first: Option<Outcome>): seq<Event>
    requires IsCalibration(runner.settings.calibration)
  {
    if first.Some? then ShrinkEvents(items, runner.settings, first.value) else []
  }
}
