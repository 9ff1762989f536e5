/** The replay ring (`src/bridge.rs`): a bounded cache of an unbounded log. */
module EventBridge {
  import opened Wrappers
  import opened Protocol
  import opened Bounded
  import Utf8
  import CanonicalJson

  // ---------------------------------------------------------- byte accounting

  function OptionBytes(value: Option<string>): nat {
    if value.Some? then Utf8.Bytes(value.value) else 0
  }

  /** Compact JSON has the same length in every key order. */
  function ToolCallBytes(call: ToolCall): nat {
    Utf8.Bytes(call.id) + Utf8.Bytes(call.name) + Utf8.Bytes(CanonicalJson.Canonical(call.arguments)) + 32
  }

  function TaskBytes(tasks: seq<TodoTask>): nat {
    if tasks == [] then 0
    else
      var t := tasks[0];
      Utf8.Bytes(t.id) + Utf8.Bytes(t.title) + Utf8.Bytes(t.createdAt) + Utf8.Bytes(t.updatedAt) + TaskBytes(tasks[1..])
  }

  function PayloadBytes(event: Event): nat {
    match event
    case ReasoningDelta(delta) => Utf8.Bytes(delta)
    case ProviderRetry(reason, delayMs) => Utf8.Bytes(reason) + 16 + delayMs / 16
    case WebSearchStarted(query) => Utf8.Bytes(query)
    case WebSearchResult(title, url, snippet) => Utf8.Bytes(title) + Utf8.Bytes(url) + Utf8.Bytes(snippet)
    case WebSearchCompleted(_) => 8
    case Cancelled(reason) => Utf8.Bytes(reason)
    case TextDelta(delta) => Utf8.Bytes(delta)
    case ToolCallStreaming(name, _) => OptionBytes(name) + 16
    case Approval(call, reason, session, title) =>
      ToolCallBytes(call) + Utf8.Bytes(reason) + OptionBytes(session) + OptionBytes(title)
    case ApprovalResolved(_) => 24
    case ToolStarted(call) => ToolCallBytes(call)
    case ToolFinished(call, result) => ToolCallBytes(call) + Utf8.Bytes(result)
    case Usage(_, _, _) => 24
    case Failed(error) => Utf8.Bytes(error)
    case ChildSessionProgress(child, status, tool) => Utf8.Bytes(child) + Utf8.Bytes(status) + OptionBytes(tool)
    case LocalCommandFinished(command, result) => Utf8.Bytes(command) + Utf8.Bytes(result)
    case CompactionCompleted(_) => 8
    case CompactionFailed(error) => Utf8.Bytes(error)
    case TodoUpdated(tasks) => TaskBytes(tasks)
    case ContextUpdated => 48
    case _ => 0
  }

  function EnvelopeBytes(envelope: Envelope): nat {
    Utf8.Bytes(envelope.sessionId) + 16 + PayloadBytes(envelope.event)
  }

  // ------------------------------------------------------- the unbounded log

  const MIN_MAX_EVENTS := 16
  const MAX_MAX_EVENTS := 4096
  const MIN_MAX_BYTES := 1024 * 1024
  const MAX_MAX_BYTES := 16 * 1024 * 1024

  function Clamp(x: nat, low: nat, high: nat): nat
    requires low <= high
  {
    if x < low then low else if x > high then high else x
  }

  /** Cursors count the log from one. */
  predicate Numbered(log: seq<Envelope>) {
    forall i :: 0 <= i < |log| ==> log[i].cursor == i + 1
  }

  /** The part of the log that the ring holds. */
  function Retained(log: seq<Envelope>, maxEvents: nat, maxBytes: nat): seq<Envelope> {
    Newest(log, EnvelopeBytes, maxEvents, maxBytes)
  }

  datatype Resync = MustResync

  /** What a reader positioned at `after` is owed: everything later, or a resync
      when something later is gone from the ring. */
  function Owed(log: seq<Envelope>, retained: nat, after: nat): Result<seq<Envelope>, Resync> {
    if after + retained < |log| then Err(MustResync)
    else if after > |log| then Ok([])
    else Ok(log[after..])
  }

  function Take<T>(s: seq<T>, n: nat): seq<T> {
    if |s| <= n then s else s[..n]
  }

  // ----------------------------------------------------------- implementation

  function After(events: seq<Envelope>, after: nat): seq<Envelope> {
    if events == [] then []
    else (if events[0].cursor > after then [events[0]] else []) + After(events[1..], after)
  }

  function Before(events: seq<Envelope>, boundary: nat): seq<Envelope> {
    if events == [] then []
    else (if events[0].cursor < boundary then [events[0]] else []) + Before(events[1..], boundary)
  }

  class EventBridge {
    const maxEvents: nat
    const maxBytes: nat
    var events: seq<Envelope>
    var bytes: nat
    var lastCursor: nat
    /** Every envelope ever pushed. */
    ghost var log: seq<Envelope>

    ghost predicate Valid()
      reads this
    {
      && maxEvents >= 1
      && Numbered(log)
      && lastCursor == |log|
      && events == Retained(log, maxEvents, maxBytes)
      && bytes == Total(events, EnvelopeBytes)
    }

    constructor (maxEvents: nat, maxBytes: nat)
      ensures Valid() && log == []
      ensures this.maxEvents == Clamp(maxEvents, MIN_MAX_EVENTS, MAX_MAX_EVENTS)
      ensures this.maxBytes == Clamp(maxBytes, MIN_MAX_BYTES, MAX_MAX_BYTES)
    {
      this.maxEvents := Clamp(maxEvents, MIN_MAX_EVENTS, MAX_MAX_EVENTS);
      this.maxBytes := Clamp(maxBytes, MIN_MAX_BYTES, MAX_MAX_BYTES);
      events, bytes, lastCursor, log := [], 0, 0, [];
    }

    /** The critical section of `push`: assign the next cursor, append, evict. */
    method Push(sessionId: string, event: Event) returns (envelope: Envelope)
      requires Valid()
      modifies this
      ensures Valid()
      ensures log == old(log) + [envelope] && envelope == Envelope(|log|, sessionId, event)
    {
      ghost var grown := log + [Envelope(lastCursor + 1, sessionId, event)];
      ghost var goal := Retained(grown, maxEvents, maxBytes);
      NewestIsIncremental(log, [Envelope(lastCursor + 1, sessionId, event)], EnvelopeBytes, maxEvents, maxBytes);
      TotalConcat(events, [Envelope(lastCursor + 1, sessionId, event)], EnvelopeBytes);
      var cursor := lastCursor + 1;
      envelope := Envelope(cursor, sessionId, event);
      lastCursor := cursor;
      bytes := bytes + EnvelopeBytes(envelope);
      events := events + [envelope];
      log := grown;
      while |events| > maxEvents || bytes > maxBytes
        invariant log == grown && lastCursor == |grown|
        invariant bytes == Total(events, EnvelopeBytes)
        invariant Newest(events, EnvelopeBytes, maxEvents, maxBytes) == goal
        decreases |events|
      {
        if events == [] {
          break;
        }
        var oldest := events[0];
        events := events[1..];
        bytes := bytes - EnvelopeBytes(oldest);
      }
    }

    function ReplayAfter(after: nat): (r: Result<seq<Envelope>, Resync>)
      requires Valid()
      reads this
      ensures r == Owed(log, |events|, after)
    {
      RingIsOwed(log, maxEvents, maxBytes, after);
      if events == [] then
        if after < lastCursor then Err(MustResync) else Ok([])
      else if after + 1 < events[0].cursor then Err(MustResync)
      else Ok(After(events, after))
    }

    /** The snapshot half of `subscribe_from` and `subscribe_cursor_from`. */
    function Snapshot(after: nat): (r: Result<seq<Envelope>, Resync>)
      requires Valid()
      reads this
      ensures r == Owed(log, |events|, after)
    {
      var boundary := lastCursor + 1;
      RingIsOwed(log, maxEvents, maxBytes, after);
      RingIsLogSuffix(log, maxEvents, maxBytes);
      AllBeforeBoundary(log, |log| - |events|, after);
      if events == [] then
        if after < lastCursor then Err(MustResync) else Ok([])
      else if after + 1 < events[0].cursor then Err(MustResync)
      else
        Ok(Before(After(events, after), boundary))
    }

    function EventsAfter(after: nat, limit: nat): (r: Option<seq<Envelope>>)
      requires Valid()
      reads this
      ensures r == match Owed(log, |events|, after)
        case Err(_) => None
        case Ok(owed) => Some(Take(owed, if limit > 1 then limit else 1))
    {
      RingIsOwed(log, maxEvents, maxBytes, after);
      if events == [] then
        if after >= lastCursor then Some([]) else None
      else if after + 1 < events[0].cursor then None
      else Some(Take(After(events, after), if limit > 1 then limit else 1))
    }
  }

  // ------------------------------------------------------------------- lemmas

  lemma RingIsLogSuffix(log: seq<Envelope>, maxEvents: nat, maxBytes: nat)
    ensures |Retained(log, maxEvents, maxBytes)| <= |log|
    ensures Retained(log, maxEvents, maxBytes) == log[|log| - |Retained(log, maxEvents, maxBytes)|..]
  {
    NewestIsLongestFit(log, EnvelopeBytes, maxEvents, maxBytes);
  }

  /** Reading the ring gives what the unbounded log owes. */
  lemma RingIsOwed(log: seq<Envelope>, maxEvents: nat, maxBytes: nat, after: nat)
    requires Numbered(log)
    ensures var ring := Retained(log, maxEvents, maxBytes);
      Owed(log, |ring|, after) ==
        if ring == [] then if after < |log| then Err(MustResync) else Ok([])
        else if after + 1 < ring[0].cursor then Err(MustResync)
        else Ok(After(ring, after))
  {
    RingIsLogSuffix(log, maxEvents, maxBytes);
    var k := |log| - |Retained(log, maxEvents, maxBytes)|;
    SuffixIsOwed(log, k, after);
  }

  lemma SuffixIsOwed(log: seq<Envelope>, k: nat, after: nat)
    requires Numbered(log) && k <= |log|
    ensures Owed(log, |log| - k, after) ==
      if k == |log| then if after < |log| then Err(MustResync) else Ok([])
      else if after + 1 < log[k..][0].cursor then Err(MustResync)
      else Ok(After(log[k..], after))
  {
    AfterIsSuffix(log, k, after);
    assert log[|log|..] == [];
    assert k < |log| ==> log[k..][0].cursor == k + 1;
  }

  lemma AfterCons(e: Envelope, rest: seq<Envelope>, after: nat)
    ensures After([e] + rest, after) == if e.cursor > after then [e] + After(rest, after) else After(rest, after)
  {
    assert ([e] + rest)[1..] == rest;
    assert [] + After(rest, after) == After(rest, after);
  }

  function FromCursor(log: seq<Envelope>, k: nat, after: nat): seq<Envelope>
    requires k <= |log|
  {
    if after >= |log| then [] else if after >= k then log[after..] else log[k..]
  }

  lemma AfterStep(log: seq<Envelope>, k: nat, after: nat)
    requires k < |log| && log[k].cursor == k + 1 && After(log[k + 1..], after) == FromCursor(log, k + 1, after)
    ensures After([log[k]] + log[k + 1..], after) == FromCursor(log, k, after)
  {
    AfterCons(log[k], log[k + 1..], after);
    ConsSlice(log, k);
  }

  /** Filtering the retained part by cursor cuts it at the right place. */
  lemma {:induction false} AfterIsSuffix(log: seq<Envelope>, k: nat, after: nat)
    requires Numbered(log) && k <= |log|
    ensures After(log[k..], after) == FromCursor(log, k, after)
    decreases |log| - k
  {
    if k < |log| {
      AfterIsSuffix(log, k + 1, after);
      AfterStep(log, k, after);
      ConsSlice(log, k);
    }
  }

  lemma ConsSlice(log: seq<Envelope>, k: nat)
    requires k < |log|
    ensures log[k..] == [log[k]] + log[k + 1..] && log[k..][1..] == log[k + 1..] && log[k..][0] == log[k]
    ensures [] + log[k + 1..] == log[k + 1..]
  {
  }

  lemma {:induction false} AllBeforeBoundary(log: seq<Envelope>, k: nat, after: nat)
    requires Numbered(log) && k <= |log|
    ensures Before(After(log[k..], after), |log| + 1) == After(log[k..], after)
  {
    AfterIsSuffix(log, k, after);
    if after < |log| {
      BeforeKeeps(log, if after >= k then after else k);
    }
  }

  lemma {:induction false} BeforeKeeps(log: seq<Envelope>, k: nat)
    requires Numbered(log) && k <= |log|
    ensures Before(log[k..], |log| + 1) == log[k..]
    decreases |log| - k
  {
    if k < |log| {
      BeforeKeeps(log, k + 1);
      ConsSlice(log, k);
    }
  }

  /** The ring is the longest suffix of the whole history within both limits,
      its cursors are contiguous, and the last one assigned ends it. */
  lemma RingIsLongestSuffix(log: seq<Envelope>, maxEvents: nat, maxBytes: nat)
    requires Numbered(log)
    ensures var ring := Retained(log, maxEvents, maxBytes);
      var k := |log| - |ring|;
      && k >= 0 && ring == log[k..] && IsLongestFit(log, k, EnvelopeBytes, maxEvents, maxBytes)
      && (forall i :: 0 <= i < |ring| ==> ring[i].cursor == k + 1 + i)
  {
    NewestIsLongestFit(log, EnvelopeBytes, maxEvents, maxBytes);
  }
}
