/** What a run keeps of the answers it gets, and what the results of its tool
    calls say. */
module AnswerTheorems {
  import opened Wrappers
  import opened Sequences
  import opened Protocol
  import opened Conversation
  import opened StreamCollecting
  import opened Forwarding
  import opened ToolBlocks
  import opened ToolDispatch
  import opened ToolResults
  import opened ToolRounds
  import opened RunLoop
  import opened Compaction
  import RunTheorems
  import SseDecoding

  // ------------------------------------------------------------------ trimming

  ghost predicate Blank(s: string) {
    forall i :: 0 <= i < |s| ==> SseDecoding.IsWhite(s[i])
  }

  lemma {:induction false} TrimStartIs(s: string) returns (a: string)
    ensures s == a + SseDecoding.TrimStart(s) && Blank(a)
    ensures var t := SseDecoding.TrimStart(s);
      t != [] ==> !SseDecoding.IsWhite(t[0])
  {
    a := [];
    if s != [] && SseDecoding.IsWhite(s[0]) {
      a := TrimStartIs(s[1..]);
      Assoc([s[0]], a, SseDecoding.TrimStart(s[1..]));
      a := [s[0]] + a;
      assert s == [s[0]] + s[1..];
    }
  }

  lemma {:induction false} TrimEndIs(s: string) returns (b: string)
    ensures s == TrimEnd(s) + b && Blank(b)
    ensures var t := TrimEnd(s);
      t != [] ==> !SseDecoding.IsWhite(t[|t| - 1]) && t[0] == s[0]
  {
    b := [];
    if s != [] && SseDecoding.IsWhite(s[|s| - 1]) {
      var n := |s| - 1;
      b := TrimEndIs(s[..n]);
      Assoc(TrimEnd(s[..n]), b, [s[n]]);
      b := b + [s[n]];
      assert s == s[..n] + [s[n]];
    }
  }

  /** Trimming takes away white space at both ends and no more. */
  lemma TrimIs(s: string)
    ensures exists a, b :: s == a + Trim(s) + b && Blank(a) && Blank(b)
    ensures Trim(s) != [] ==> !SseDecoding.IsWhite(Trim(s)[0]) && !SseDecoding.IsWhite(Trim(s)[|Trim(s)| - 1])
  {
    var a := TrimStartIs(s);
    var b := TrimEndIs(SseDecoding.TrimStart(s));
    Assoc(a, Trim(s), b);
  }

  // --------------------------------------------------------- the kept answer

  function Summary(reasoning: string): seq<Item> {
    if Trim(reasoning) == "" then [] else [ThinkingSummary(Trim(reasoning))]
  }

  function Answer(text: string): seq<Item> {
    if text == "" then [] else [Item.Message(Assistant, text)]
  }

  function CallItems(reply: Reply, tail: seq<Event>): seq<Item> {
    if reply.calls == [] then [] else [AssistantToolCalls(reply.calls)] + Outputs(tail)
  }

  /** What a kept reply appends: the trimmed reasoning unless it is blank, the
      text unless it is empty, then the calls and their outputs if there are any. */
  lemma KeptReplyIs(items: seq<Item>, reply: Reply, round: Round, next: Next, after: seq<Item>, tail: seq<Event>)
    requires Replied(items, reply, round, next, after, tail) && KeepFault(round, reply).None?
    ensures after == items + (Summary(reply.reasoning) + Answer(reply.text) + CallItems(reply, tail))
  {
  }

  lemma EndingIsNoCompletion(error: string)
    ensures Ending(error) != Completed
  {
  }

  /** A pass after which the run goes on, or is complete, has kept its reply. */
  lemma ReplyIsKept(runner: Runner, round: Round, p: Pass)
    requires IsCalibration(runner.settings.calibration) && PassOk(runner, round, p)
    requires p.next == Over(Completed) || (p.next.Again? && p.reply.Some?)
    ensures p.reply.Some? && KeepFault(round, p.reply.value).None?
    ensures Replied(p.history + Collected(p.delivered), p.reply.value, round, p.next, p.after, p.tail)
    ensures p.next == Over(Completed) <==> p.reply.value.calls == []
  {
    forall error ensures Ending(error) != Completed {
      EndingIsNoCompletion(error);
    }
    assert p.end.Finished?;
  }

  /** What such a pass has added: the items of its stream, the trimmed newest
      reasoning, the whole text, and the calls with their outputs. */
  lemma PassAdds(runner: Runner, round: Round, p: Pass)
    requires IsCalibration(runner.settings.calibration) && PassOk(runner, round, p)
    requires p.next == Over(Completed) || (p.next.Again? && p.reply.Some?)
    ensures p.reply.Some?
    ensures p.after == p.history + Collected(p.delivered)
      + (Summary(p.reply.value.reasoning) + Answer(TextOf(p.delivered)) + CallItems(p.reply.value, p.tail))
  {
    ReplyIsKept(runner, round, p);
    KeptReplyIs(p.history + Collected(p.delivered), p.reply.value, round, p.next, p.after, p.tail);
  }

  /** A run that completes has its answer as the last item. */
  lemma CompletedRunEndsInAnswer(runner: Runner, rounds: seq<Round>, start: seq<Item>, passes: seq<Pass>)
    requires IsCalibration(runner.settings.calibration) && Traced(runner, rounds, start, passes) && Last(passes) == [Completed]
    ensures var text, items := TextOf(passes[|passes| - 1].delivered), Final(start, passes);
      text != "" ==> items != [] && items[|items| - 1] == Item.Message(Assistant, text)
  {
    var n := |passes| - 1;
    OkAt(runner, rounds, passes, n);
    PassAdds(runner, rounds[n], passes[n]);
    ReplyIsKept(runner, rounds[n], passes[n]);
  }

  lemma EndOf<T>(a: seq<T>, b: seq<T>, c: seq<T>, head: nat)
    requires head <= |a|
    ensures (a + (b + c))[head..] == a[head..] + b + c
  {
  }

  /** The next request ends in the answer, the calls and their outputs. */
  lemma AnswerIsRequested(runner: Runner, rounds: seq<Round>, start: seq<Item>, passes: seq<Pass>, k: nat) returns (older: seq<Item>)
    requires IsCalibration(runner.settings.calibration) && Traced(runner, rounds, start, passes)
    requires k + 1 < |passes| && passes[k].reply.Some?
    ensures var reply := passes[k].reply.value;
      && reply.calls != []
      && passes[k + 1].request == older + (Answer(TextOf(passes[k].delivered)) + ([AssistantToolCalls(reply.calls)] + Outputs(passes[k].tail)))
  {
    var p, q := passes[k], passes[k + 1];
    assert Linked(passes[k + 1 - 1], passes[k + 1]);
    OkAt(runner, rounds, passes, k);
    RunTheorems.OwnPartIsReplayed(runner, rounds, start, passes, k + 1);
    older := RequestEnds(runner, rounds[k], p, q.history, q.head, q.request,
                         [Item.Message(System, runner.systemPrompt)], Replay(q.history[..q.head], OutputIds(q.history), {}));
  }

  lemma RequestEnds(runner: Runner, round: Round, p: Pass, items: seq<Item>, head: nat, request: seq<Item>,
                    prompt: seq<Item>, replayed: seq<Item>) returns (older: seq<Item>)
    requires IsCalibration(runner.settings.calibration) && PassOk(runner, round, p) && p.next.Again? && p.reply.Some?
    requires items == p.after && head == p.head <= |p.history| && request == prompt + (replayed + items[head..])
    ensures p.reply.value.calls != []
    ensures request == older + (Answer(TextOf(p.delivered)) + ([AssistantToolCalls(p.reply.value.calls)] + Outputs(p.tail)))
  {
    PassAdds(runner, round, p);
    ReplyIsKept(runner, round, p);
    Assoc(prompt, replayed, items[head..]);
    older := OlderPart(p.history, Collected(p.delivered), Summary(p.reply.value.reasoning), Answer(TextOf(p.delivered)),
                       CallItems(p.reply.value, p.tail), p.head, prompt + replayed);
  }

  lemma OlderPart(items: seq<Item>, collected: seq<Item>, summary: seq<Item>, answer: seq<Item>, calls: seq<Item>, head: nat,
                  replayed: seq<Item>) returns (older: seq<Item>)
    requires head <= |items|
    ensures replayed + (items + collected + (summary + answer + calls))[head..] == older + (answer + calls)
  {
    older := replayed + (items[head..] + collected + summary);
    assert (items + collected + (summary + answer + calls))[head..] == (items[head..] + collected + summary) + (answer + calls);
    Assoc(replayed, items[head..] + collected + summary, answer + calls);
  }

  /** Without a retry in between, a history is only appended to. */
  lemma {:induction false} HistoryStays(passes: seq<Pass>, i: nat, j: nat)
    requires AllLinked(passes) && i <= j < |passes|
    ensures passes[i].retries <= passes[j].retries
    ensures passes[i].retries == passes[j].retries ==> passes[i].history <= passes[j].history && passes[i].head == passes[j].head
    decreases j - i
  {
    if i < j {
      HistoryStays(passes, i, j - 1);
      assert Linked(passes[j - 1], passes[j]);
    }
  }

  /** A kept answer stands in every later request, until something is shrunk. */
  lemma AnswerStays(runner: Runner, rounds: seq<Round>, start: seq<Item>, passes: seq<Pass>, i: nat, j: nat)
    requires IsCalibration(runner.settings.calibration) && Traced(runner, rounds, start, passes)
    requires i < j < |passes| && passes[i].reply.Some? && passes[j].retries == passes[i].retries
    requires TextOf(passes[i].delivered) != ""
    ensures Item.Message(Assistant, TextOf(passes[i].delivered)) in passes[j].request
  {
    var answer := Item.Message(Assistant, TextOf(passes[i].delivered));
    assert Linked(passes[i + 1 - 1], passes[i + 1]);
    HistoryStays(passes, i, j);
    HistoryStays(passes, i + 1, j);
    OkAt(runner, rounds, passes, i);
    PassAdds(runner, rounds[i], passes[i]);
    var at := AnswerAt(passes[i].history + Collected(passes[i].delivered), Summary(passes[i].reply.value.reasoning), answer,
                       CallItems(passes[i].reply.value, passes[i].tail));
    OkAt(runner, rounds, passes, j);
    RunTheorems.OwnPartIsReplayed(runner, rounds, start, passes, j);
    OwnItem(passes[j].history, passes[j].head, at);
  }

  lemma AnswerAt(items: seq<Item>, summary: seq<Item>, answer: Item, calls: seq<Item>) returns (at: nat)
    ensures |items| <= at < |items| + |summary| + 1 + |calls| && (items + (summary + [answer] + calls))[at] == answer
  {
    at := |items| + |summary|;
    assert (summary + [answer] + calls)[|summary|] == answer;
  }

  lemma OwnItem(items: seq<Item>, head: nat, at: nat)
    requires head <= at < |items|
    ensures items[at] in items[head..]
  {
    assert items[head..][at - head] == items[at];
  }

  // ---------------------------------------------------------------- the results

  /** What the results of the passes make known. */
  function KnownBy(passes: seq<Pass>): set<string> {
    if passes == [] then {} else KnownBy(passes[..|passes| - 1]) + Known(passes[|passes| - 1].tail)
  }

  lemma {:induction false} ExecutedIs(runner: Runner, rounds: seq<Round>, start: seq<Item>, passes: seq<Pass>, n: nat)
    requires IsCalibration(runner.settings.calibration) && Traced(runner, rounds, start, passes) && n < |passes|
    ensures passes[n].executed == KnownBy(passes[..n])
  {
    if n > 0 {
      ExecutedIs(runner, rounds, start, passes, n - 1);
      assert Linked(passes[n - 1], passes[n]);
      assert passes[..n][..n - 1] == passes[..n - 1];
    }
  }

  /** Every result that a run announces is that of one of the calls of its pass,
      and says what the tool gave or why it was not run; the repetitions are of
      calls whose results were announced before, in this pass or an earlier one. */
  lemma ResultsSay(runner: Runner, rounds: seq<Round>, start: seq<Item>, passes: seq<Pass>, n: nat, k: nat)
    requires IsCalibration(runner.settings.calibration) && Traced(runner, rounds, start, passes)
    requires n < |passes| && k < |passes[n].tail| && passes[n].tail[k].ToolFinished?
    ensures var p, before := passes[n], KnownBy(passes[..n]);
      exists m :: ToldBy(runner.config, rounds[n].world, CallsAsked(p.reply), before, before + Known(p.tail[..k]), p.tail[k], m)
  {
    OkAt(runner, rounds, passes, n);
    ExecutedIs(runner, rounds, start, passes, n);
    var p := passes[n];
    assert ToldOne(runner.config, rounds[n].world, CallsAsked(p.reply), p.executed, p.executed + Known(p.tail[..k]), p.tail[k]);
  }

  lemma {:induction false} CallHasId(calls: seq<ToolCall>, m: nat)
    requires m < |calls|
    ensures calls[m].id in CallBag(calls)
  {
    if m > 0 {
      CallHasId(calls[1..], m - 1);
    }
  }

  lemma {:induction false} IdHasOutput(outputs: seq<Item>, id: string)
    requires id in OutputBag(outputs)
    ensures exists i :: 0 <= i < |outputs| && outputs[i].ToolOutput? && outputs[i].callId == id
  {
    if !(outputs[0].ToolOutput? && outputs[0].callId == id) {
      IdHasOutput(outputs[1..], id);
      var i :| 0 <= i < |outputs[1..]| && outputs[1..][i].ToolOutput? && outputs[1..][i].callId == id;
      assert outputs[i + 1] == outputs[1..][i];
    }
  }

  /** No other call of the list bears the id. */
  predicate OwnId(calls: seq<ToolCall>, m: nat)
    requires m < |calls|
  {
    forall i :: 0 <= i < |calls| && calls[i].id == calls[m].id ==> i == m
  }

  /** A pass after which the run goes on has announced and appended, for every
      call with an id of its own, the result of that call. */
  lemma EveryCallIsTold(runner: Runner, rounds: seq<Round>, start: seq<Item>, passes: seq<Pass>, n: nat, m: nat) returns (k: nat)
    requires IsCalibration(runner.settings.calibration) && Traced(runner, rounds, start, passes)
    requires n < |passes| && passes[n].next.Again? && passes[n].reply.Some?
    requires m < |passes[n].reply.value.calls| && OwnId(passes[n].reply.value.calls, m)
    ensures var p, before := passes[n], KnownBy(passes[..n]);
      && k < |p.tail| && p.tail[k].ToolFinished? && p.tail[k].call == p.reply.value.calls[m]
      && ToldBy(runner.config, rounds[n].world, p.reply.value.calls, before, before + Known(p.tail[..k]), p.tail[k], m)
      && ToolOutput(p.reply.value.calls[m].id, p.tail[k].result) in p.after
  {
    var p := passes[n];
    var calls, outputs := p.reply.value.calls, Outputs(p.tail);
    OkAt(runner, rounds, passes, n);
    CallHasId(calls, m);
    k := AnnouncedFor(p.tail, calls[m].id);
    ResultsSay(runner, rounds, start, passes, n, k);
    RunTheorems.OutputOf(p.tail, k);
    PassAdds(runner, rounds[n], p);
  }

  lemma AnnouncedFor(tail: seq<Event>, id: string) returns (k: nat)
    requires id in OutputBag(Outputs(tail))
    ensures k < |tail| && tail[k].ToolFinished? && tail[k].call.id == id
  {
    IdHasOutput(Outputs(tail), id);
    var i :| 0 <= i < |Outputs(tail)| && Outputs(tail)[i].ToolOutput? && Outputs(tail)[i].callId == id;
    RunTheorems.OutputIsResult(tail, Outputs(tail)[i]);
    k :| k < |tail| && tail[k].ToolFinished? && Outputs(tail)[i] == ToolOutput(tail[k].call.id, tail[k].result);
  }
}
