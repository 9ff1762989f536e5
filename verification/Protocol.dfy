/** The events consumers see (`src/protocol.rs`), with the fields that byte
    accounting and the stream rules look at. */
module Protocol {
  import opened Wrappers
  import CanonicalJson

  datatype ToolCall = ToolCall(id: string, name: string, arguments: CanonicalJson.Json)

  datatype TodoTask = TodoTask(id: string, title: string, createdAt: string, updatedAt: string)

  datatype Event =
    | ReasoningDelta(delta: string)
    | ReasoningCompleted
    | ProviderRetry(reason: string, delayMs: nat)
    | ModelStreaming
    | WebSearchStarted(query: string)
    | WebSearchResult(title: string, url: string, snippet: string)
    | WebSearchCompleted(count: nat)
    | Cancelled(reason: string)
    | TextDelta(delta: string)
    | ToolCallStreaming(name: Option<string>, receivedBytes: nat)
    | Approval(call: ToolCall, reason: string, sourceSession: Option<string>, sourceTitle: Option<string>)
    | ApprovalResolved(approved: bool)
    | ToolStarted(call: ToolCall)
    | ToolFinished(call: ToolCall, result: string)
    | Usage(input: nat, output: nat, total: nat)
    | Completed
    | Failed(error: string)
    | SessionsChanged
    | ChildSessionProgress(child: string, status: string, tool: Option<string>)
    | LocalCommandFinished(command: string, result: string)
    | CompactionStarted
    | CompactionCompleted(hidden: nat)
    | CompactionFailed(error: string)
    | TodoUpdated(tasks: seq<TodoTask>)
    | TranscriptInvalidated
    | ContextUpdated
    | ResyncRequired

  /** Cursor zero is the empty-stream baseline; real cursors start at one. */
  datatype Envelope = Envelope(cursor: nat, sessionId: string, event: Event)
}
