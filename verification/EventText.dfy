/** What the byte accounting of the replay ring covers (`src/bridge.rs`). */
module EventText {
  import opened Wrappers
  import opened Protocol
  import opened Bounded
  import opened EventBridge
  import CanonicalJson
  import Utf8

  function OptionText(value: Option<string>): seq<string> {
    if value.Some? then [value.value] else []
  }

  function CallTexts(call: ToolCall): seq<string> {
    [call.id, call.name, CanonicalJson.Canonical(call.arguments)]
  }

  function TaskTexts(tasks: seq<TodoTask>): seq<string> {
    if tasks == [] then []
    else [tasks[0].id, tasks[0].title, tasks[0].createdAt, tasks[0].updatedAt] + TaskTexts(tasks[1..])
  }

  /** All text that an event carries. */
  function Texts(event: Event): seq<string> {
    match event
    case ReasoningDelta(delta) => [delta]
    case ProviderRetry(reason, _) => [reason]
    case WebSearchStarted(query) => [query]
    case WebSearchResult(title, url, snippet) => [title, url, snippet]
    case Cancelled(reason) => [reason]
    case TextDelta(delta) => [delta]
    case ToolCallStreaming(name, _) => OptionText(name)
    case Approval(call, reason, session, title) => CallTexts(call) + [reason] + OptionText(session) + OptionText(title)
    case ToolStarted(call) => CallTexts(call)
    case ToolFinished(call, result) => CallTexts(call) + [result]
    case Failed(error) => [error]
    case ChildSessionProgress(child, status, tool) => [child, status] + OptionText(tool)
    case LocalCommandFinished(command, result) => [command, result]
    case CompactionFailed(error) => [error]
    case TodoUpdated(tasks) => TaskTexts(tasks)
    case _ => []
  }

  lemma TextsOfOne(a: string)
    ensures Total([a], Utf8.Bytes) == Utf8.Bytes(a)
  {
    assert [a][1..] == [];
  }

  lemma TextsOfMore(a: string, rest: seq<string>)
    ensures Total([a] + rest, Utf8.Bytes) == Utf8.Bytes(a) + Total(rest, Utf8.Bytes)
  {
    TotalConcat([a], rest, Utf8.Bytes);
    TextsOfOne(a);
  }

  lemma TextsOfOption(value: Option<string>)
    ensures Total(OptionText(value), Utf8.Bytes) == OptionBytes(value)
  {
    if value.Some? {
      TextsOfOne(value.value);
    }
  }

  lemma TextsOfThree(a: string, b: string, c: string)
    ensures Total([a, b, c], Utf8.Bytes) == Utf8.Bytes(a) + Utf8.Bytes(b) + Utf8.Bytes(c)
    ensures Total([a, b], Utf8.Bytes) == Utf8.Bytes(a) + Utf8.Bytes(b)
  {
    TextsOfMore(a, [b, c]);
    TextsOfMore(b, [c]);
    TextsOfOne(c);
    TextsOfMore(a, [b]);
    TextsOfOne(b);
    assert [a] + [b, c] == [a, b, c] && [b] + [c] == [b, c] && [a] + [b] == [a, b];
  }

  lemma {:induction false} TextsOfTasks(tasks: seq<TodoTask>)
    ensures Total(TaskTexts(tasks), Utf8.Bytes) == TaskBytes(tasks)
  {
    if tasks != [] {
      var t := tasks[0];
      TextsOfTasks(tasks[1..]);
      TotalConcat([t.id, t.title, t.createdAt, t.updatedAt], TaskTexts(tasks[1..]), Utf8.Bytes);
      TextsOfMore(t.id, [t.title, t.createdAt, t.updatedAt]);
      TextsOfThree(t.title, t.createdAt, t.updatedAt);
      assert [t.id] + [t.title, t.createdAt, t.updatedAt] == [t.id, t.title, t.createdAt, t.updatedAt];
    }
  }

  lemma TextsOfCall(call: ToolCall)
    ensures Total(CallTexts(call), Utf8.Bytes) + 32 == ToolCallBytes(call)
  {
    TextsOfThree(call.id, call.name, CanonicalJson.Canonical(call.arguments));
  }

  lemma TextsOfApproval(call: ToolCall, reason: string, session: Option<string>, title: Option<string>)
    ensures Total(Texts(Approval(call, reason, session, title)), Utf8.Bytes) <= PayloadBytes(Approval(call, reason, session, title))
  {
    TotalConcat(CallTexts(call) + [reason] + OptionText(session), OptionText(title), Utf8.Bytes);
    TotalConcat(CallTexts(call) + [reason], OptionText(session), Utf8.Bytes);
    TotalConcat(CallTexts(call), [reason], Utf8.Bytes);
    TextsOfCall(call);
    TextsOfOne(reason);
    TextsOfOption(session);
    TextsOfOption(title);
  }

  lemma TextsOfResult(call: ToolCall, result: string)
    ensures Total(CallTexts(call) + [result], Utf8.Bytes) <= ToolCallBytes(call) + Utf8.Bytes(result)
  {
    TextsOfCall(call);
    TotalConcat(CallTexts(call), [result], Utf8.Bytes);
    TextsOfOne(result);
  }

  lemma TextsOfProgress(child: string, status: string, tool: Option<string>)
    ensures Total([child, status] + OptionText(tool), Utf8.Bytes) == Utf8.Bytes(child) + Utf8.Bytes(status) + OptionBytes(tool)
  {
    TotalConcat([child, status], OptionText(tool), Utf8.Bytes);
    TextsOfThree(child, status, "");
    TextsOfOption(tool);
  }

  /** An event is charged for at least all the text it carries. */
  lemma PayloadCoversText(event: Event)
    ensures Total(Texts(event), Utf8.Bytes) <= PayloadBytes(event)
  {
    match event
    case ReasoningDelta(delta) => TextsOfOne(delta);
    case ProviderRetry(reason, _) => TextsOfOne(reason);
    case WebSearchStarted(query) => TextsOfOne(query);
    case WebSearchResult(title, url, snippet) => TextsOfThree(title, url, snippet);
    case Cancelled(reason) => TextsOfOne(reason);
    case TextDelta(delta) => TextsOfOne(delta);
    case ToolCallStreaming(name, _) => TextsOfOption(name);
    case Approval(call, reason, session, title) => TextsOfApproval(call, reason, session, title);
    case ToolStarted(call) => TextsOfCall(call);
    case ToolFinished(call, result) => TextsOfResult(call, result);
    case Failed(error) => TextsOfOne(error);
    case ChildSessionProgress(child, status, tool) => TextsOfProgress(child, status, tool);
    case LocalCommandFinished(command, result) => TextsOfThree(command, result, "");
    case CompactionFailed(error) => TextsOfOne(error);
    case TodoUpdated(tasks) => TextsOfTasks(tasks);
    case _ =>
  }

  function EventText(envelope: Envelope): nat {
    Utf8.Bytes(envelope.sessionId) + Total(Texts(envelope.event), Utf8.Bytes)
  }

  lemma {:induction false} TextWithinBytes(envelopes: seq<Envelope>)
    ensures Total(envelopes, EventText) + 16 * |envelopes| <= Total(envelopes, EnvelopeBytes)
  {
    if envelopes != [] {
      TextWithinBytes(envelopes[1..]);
      PayloadCoversText(envelopes[0].event);
    }
  }

  /** All the text in the ring, with sixteen bytes for each envelope, is within
      the byte limit. */
  lemma RingTextIsBounded(log: seq<Envelope>, maxEvents: nat, maxBytes: nat)
    ensures var ring := Retained(log, maxEvents, maxBytes);
      Total(ring, EventText) + 16 * |ring| <= maxBytes
  {
    NewestIsLongestFit(log, EnvelopeBytes, maxEvents, maxBytes);
    TextWithinBytes(Retained(log, maxEvents, maxBytes));
  }
}
