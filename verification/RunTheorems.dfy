/** What holds of every run, whatever the provider, the tools, the user and the
    storage do. */
module RunTheorems {
  import opened Wrappers
  import opened Protocol
  import opened Conversation
  import opened StreamCollecting
  import opened Forwarding
  import opened RoundTheorems
  import opened ToolBlocks
  import opened ToolDispatch
  import opened ToolRounds
  import opened ToolResults
  import opened RunLoop
  import opened Compaction
  import Conformance
  import CanonicalJson
  import CanonicalJsonTheorems
  import ProviderStream
  import RedactionTheorems
  import Secrets
  import Utf8

  // ------------------------------------------------------------- the stream

  /** What the checker and the counting need to know of a run's events. */
  lemma Shape(runner: Runner, rounds: seq<Round>, items: seq<Item>, first: Option<Outcome>, passes: seq<Pass>)
    requires IsCalibration(runner.settings.calibration) && Traced(runner, rounds, Begun(runner, items, first), passes)
    ensures AllHarmless(Preamble(runner, items, first))
    ensures forall k :: 0 <= k < |passes| ==> AllHarmless(Tails(passes)[k])
    ensures |Last(passes)| <= 1 && (Last(passes) != [] ==> Conformance.IsTerminal(Last(passes)[0]))
  {
    if first.Some? {
      ShrinkEventsAreNeutral(items, runner.settings, first.value);
      NeutralMeans(runner.config, 0, Preamble(runner, items, first));
    }
    TailsAreHarmless(runner, rounds, passes);
    if passes != [] {
      OkAt(runner, rounds, passes, |passes| - 1);
    }
  }

  lemma {:induction false} TailsAreHarmless(runner: Runner, rounds: seq<Round>, passes: seq<Pass>)
    requires IsCalibration(runner.settings.calibration) && AllOk(runner, rounds, passes)
    ensures forall k :: 0 <= k < |passes| ==> AllHarmless(Tails(passes)[k])
  {
    if passes != [] {
      var n := |passes| - 1;
      OkAt(runner, rounds, passes, n);
      TailsAreHarmless(runner, rounds, passes[..n]);
    }
  }

  lemma {:induction false} DeliveriesAt(passes: seq<Pass>, k: nat)
    requires k < |passes|
    ensures Deliveries(passes)[k] == passes[k].delivered
  {
    if k < |passes| - 1 {
      DeliveriesAt(passes[..|passes| - 1], k);
    }
  }

  /** A run's events satisfy the stream rules if and only if every round
      delivered in order; a terminal event can only come last. */
  lemma StreamIsAcceptedIff(runner: Runner, rounds: seq<Round>, items: seq<Item>, first: Option<Outcome>, passes: seq<Pass>)
    requires IsCalibration(runner.settings.calibration) && Traced(runner, rounds, Begun(runner, items, first), passes)
    ensures var sent := AllSent(runner, Preamble(runner, items, first), passes);
      && (Fine(sent) <==> forall k :: 0 <= k < |passes| ==> InOrder(passes[k].delivered))
      && |Last(passes)| <= |sent| && sent[|sent| - |Last(passes)|..] == Last(passes)
      && NoTerminal(sent[..|sent| - |Last(passes)|])
  {
    var before, max := Preamble(runner, items, first), MaxEvent(runner.limits);
    Shape(runner, rounds, items, first, passes);
    RunIsAcceptedIff(before, Deliveries(passes), Tails(passes), Last(passes), max);
    OnlyLastIsTerminal(before, Deliveries(passes), Tails(passes), max);
    AllInOrderMeans(passes);
    var all := before + Stream(Deliveries(passes), Tails(passes), max);
    assert (all + Last(passes))[..|all|] == all && (all + Last(passes))[|all|..] == Last(passes);
  }

  lemma AllInOrderMeans(passes: seq<Pass>)
    ensures AllInOrder(Deliveries(passes)) <==> forall k :: 0 <= k < |passes| ==> InOrder(passes[k].delivered)
  {
    forall k | 0 <= k < |passes| ensures Deliveries(passes)[k] == passes[k].delivered {
      DeliveriesAt(passes, k);
    }
  }

  /** Where the provider always keeps the promised order, every run's events
      satisfy the stream rules, over any number of rounds. */
  lemma OrderlyRunIsAccepted(runner: Runner, rounds: seq<Round>, items: seq<Item>, first: Option<Outcome>, passes: seq<Pass>)
    requires IsCalibration(runner.settings.calibration) && Traced(runner, rounds, Begun(runner, items, first), passes)
    requires forall k :: 0 <= k < |rounds| ==> Phased(rounds[k].stream.events) && NoEmptyReasoning(rounds[k].stream.events)
    ensures Fine(AllSent(runner, Preamble(runner, items, first), passes))
  {
    forall k | 0 <= k < |passes| ensures InOrder(passes[k].delivered) {
      OkAt(runner, rounds, passes, k);
      PrefixIsPhased(passes[k].delivered, rounds[k].stream.events);
      PhasedIsInOrder(passes[k].delivered);
    }
    StreamIsAcceptedIff(runner, rounds, items, first, passes);
  }

  /** So it is behind the redacting provider, wherever the events it parses come
      in order, whatever it withholds and however its streams end. */
  lemma NetworkRunIsAccepted(f: ProviderStream.Filter, parsed: seq<seq<ModelEvent>>, endings: seq<ProviderStream.Ending>, chat: bool,
                             runner: Runner, rounds: seq<Round>, items: seq<Item>, first: Option<Outcome>, passes: seq<Pass>)
    requires f.Valid() && |parsed| == |endings| == |rounds|
    requires forall k :: 0 <= k < |rounds| ==>
      Phased(parsed[k]) && rounds[k].stream.events == ProviderStream.Sent(f, parsed[k], endings[k], chat)
    requires IsCalibration(runner.settings.calibration) && Traced(runner, rounds, Begun(runner, items, first), passes)
    ensures Fine(AllSent(runner, Preamble(runner, items, first), passes))
  {
    forall k | 0 <= k < |rounds| ensures Phased(rounds[k].stream.events) && NoEmptyReasoning(rounds[k].stream.events) {
      ProviderStream.SentIsTidy(f, parsed[k], endings[k], chat);
    }
    OrderlyRunIsAccepted(runner, rounds, items, first, passes);
  }

  lemma PrefixIsPhased(a: seq<ModelEvent>, b: seq<ModelEvent>)
    requires a <= b && Phased(b) && NoEmptyReasoning(b)
    ensures Phased(a) && NoEmptyReasoning(a)
  {
    assert forall i :: 0 <= i < |a| ==> a[i] == b[i];
  }

  /** The rounds in which an answer followed reasoning. */
  function AnsweredRounds(delivered: seq<seq<ModelEvent>>): nat {
    if delivered == [] then 0
    else
      var n := |delivered| - 1;
      AnsweredRounds(delivered[..n]) + (if Answered(delivered[n], |delivered[n]|) then 1 else 0)
  }

  lemma HarmlessHasNoBarrier(events: seq<Event>)
    requires AllHarmless(events)
    ensures Count(events, IsBarrier) == 0
  {
    forall k | 0 <= k < |events| ensures !IsBarrier(events[k]) {
      assert Harmless(events[k]);
    }
    CountNone(events, IsBarrier);
  }

  lemma RoundBarriers(events: seq<ModelEvent>, tail: seq<Event>, max: nat)
    requires AllHarmless(tail)
    ensures Count([ModelStreaming] + Emitted(events, max) + tail, IsBarrier) == if Answered(events, |events|) then 1 else 0
  {
    CountConcat([ModelStreaming] + Emitted(events, max), tail, IsBarrier);
    CountConcat([ModelStreaming], Emitted(events, max), IsBarrier);
    CountNone([ModelStreaming], IsBarrier);
    OneBarrierPerRound(events, max);
    HarmlessHasNoBarrier(tail);
  }

  lemma {:induction false} StreamBarriers(delivered: seq<seq<ModelEvent>>, tails: seq<seq<Event>>, max: nat)
    requires |delivered| == |tails| && forall k :: 0 <= k < |tails| ==> AllHarmless(tails[k])
    ensures Count(Stream(delivered, tails, max), IsBarrier) == AnsweredRounds(delivered)
  {
    if delivered != [] {
      var n := |delivered| - 1;
      StreamBarriers(delivered[..n], tails[..n], max);
      RoundBarriers(delivered[n], tails[n], max);
      CountConcat(Stream(delivered[..n], tails[..n], max), [ModelStreaming] + Emitted(delivered[n], max) + tails[n], IsBarrier);
    }
  }

  /** A run sends one reasoning barrier for each round in which an answer
      followed reasoning, and no other. */
  lemma OneBarrierPerAnsweredRound(runner: Runner, rounds: seq<Round>, items: seq<Item>, first: Option<Outcome>, passes: seq<Pass>)
    requires IsCalibration(runner.settings.calibration) && Traced(runner, rounds, Begun(runner, items, first), passes)
    ensures Count(AllSent(runner, Preamble(runner, items, first), passes), IsBarrier) == AnsweredRounds(Deliveries(passes))
  {
    var before, max := Preamble(runner, items, first), MaxEvent(runner.limits);
    Shape(runner, rounds, items, first, passes);
    StreamBarriers(Deliveries(passes), Tails(passes), max);
    BarriersBetween(before, Stream(Deliveries(passes), Tails(passes), max), Last(passes));
  }

  lemma TerminalHasNoBarrier(last: seq<Event>)
    requires |last| <= 1 && (last != [] ==> Conformance.IsTerminal(last[0]))
    ensures Count(last, IsBarrier) == 0
  {
    CountNone(last, IsBarrier);
  }

  lemma BarriersBetween(before: seq<Event>, stream: seq<Event>, last: seq<Event>)
    requires AllHarmless(before) && |last| <= 1 && (last != [] ==> Conformance.IsTerminal(last[0]))
    ensures Count(before + stream + last, IsBarrier) == Count(stream, IsBarrier)
  {
    TerminalHasNoBarrier(last);
    HarmlessHasNoBarrier(before);
    CountConcat(before + stream, last, IsBarrier);
    CountConcat(before, stream, IsBarrier);
  }

  // ------------------------------------------------------------ conversation

  /** At every loop head the run's own calls and outputs balance, and the
      request replays the run's own part unchanged. */
  lemma OwnPartIsReplayed(runner: Runner, rounds: seq<Round>, start: seq<Item>, passes: seq<Pass>, k: nat)
    requires IsCalibration(runner.settings.calibration) && Traced(runner, rounds, start, passes) && k < |passes|
    ensures var items, head := passes[k].history, passes[k].head;
      && head <= |items|
      && passes[k].request == [Item.Message(System, runner.systemPrompt)] + (Replay(items[..head], OutputIds(items), {}) + items[head..])
      && CallsIn(items[head..]) == OutputBag(items[head..])
  {
    var items, head := passes[k].history, passes[k].head;
    OkAt(runner, rounds, passes, k);
    assert items == items[..head] + items[head..];
    BlocksAreReplayed(items[..head], items[head..]);
    BlocksBalance(items[head..]);
  }

  /** A completed run leaves them balanced too. */
  lemma CompletedRunIsBalanced(runner: Runner, rounds: seq<Round>, start: seq<Item>, passes: seq<Pass>)
    requires IsCalibration(runner.settings.calibration) && Traced(runner, rounds, start, passes) && Last(passes) == [Completed]
    ensures var items, head := Final(start, passes), passes[|passes| - 1].head;
      head <= |items| && CallsIn(items[head..]) == OutputBag(items[head..])
  {
    var n := |passes| - 1;
    OkAt(runner, rounds, passes, n);
    BlocksBalance(Final(start, passes)[passes[n].head..]);
  }

  // -------------------------------------------------------------- tool calls

  /** What a tool is run for in one run differs from whatever was run before by
      more than the order of object keys, unless it is a child agent. */
  lemma NothingRunsTwice(log: seq<Execution>, a: nat, b: nat)
    requires NoRepeat(log) && a < b < |log| && log[a].call.name == log[b].call.name
    requires CanonicalJson.WellFormed(log[a].call.arguments) && CanonicalJson.WellFormed(log[b].call.arguments)
    requires CanonicalJson.Equivalent(log[a].call.arguments, log[b].call.arguments)
    ensures log[b].call.name == "agent_spawn" && log[a].round == log[b].round
  {
    CanonicalJsonTheorems.CanonicalIffEquivalent(log[a].call.arguments, log[b].call.arguments);
    assert SameCall(log[a].call, log[b].call);
  }

  /** A handled call is in the log of what was run if and only if it may be run;
      one that storage stopped is there only if it may. */
  lemma RunsIff(config: Config, s: Tools, call: ToolCall, answer: Answer, round: nat, r: Result<bool, string>, t: Tools, sent: seq<Event>)
    requires Dispatched(config, s, call, answer, round, r, t, sent)
    ensures r.Ok? ==> t.log == s.log + (if MayRun(config, s.executed, call, answer) then [Execution(round, call)] else [])
    ensures t.log != s.log ==> MayRun(config, s.executed, call, answer) && t.log == s.log + [Execution(round, call)]
  {
    var v := Decide(config, s.executed, call, answer);
    MayRunIff(config, s.executed, call, answer);
    CarriedLog(Opening(call, answer, v), Closing(config, call, answer, v), Runs(v), v == Spawned, s, call, answer, round, r, t, sent);
  }

  lemma MayRunIff(config: Config, executed: set<string>, call: ToolCall, answer: Answer)
    ensures Runs(Decide(config, executed, call, answer)) <==> MayRun(config, executed, call, answer)
  {
  }

  lemma CarriedLog(opening: seq<Event>, closing: seq<Event>, runs: bool, defers: bool,
                   s: Tools, call: ToolCall, answer: Answer, round: nat, r: Result<bool, string>, t: Tools, sent: seq<Event>)
    requires Carried(opening, closing, runs, defers, s, call, answer, round, r, t, sent)
    ensures r.Ok? ==> t.log == s.log + (if runs then [Execution(round, call)] else [])
    ensures t.log != s.log ==> runs && t.log == s.log + [Execution(round, call)]
  {
    assert s.log + [] == s.log;
    assert |opening + closing| >= |opening|;
  }

  lemma OpeningOfRun(call: ToolCall, answer: Answer, v: Verdict)
    requires Runs(v)
    ensures Opening(call, answer, v) == if v != Todo && answer.policy.RequireApproval?
      then [Approval(call, answer.policy.reason, None, None), ToolStarted(call)] else [ToolStarted(call)]
  {
  }

  /** Whatever is run was announced as started, right after the user was asked
      if the policy left it to the user. */
  lemma RunIsAnnounced(config: Config, s: Tools, call: ToolCall, answer: Answer, round: nat, r: Result<bool, string>, t: Tools, sent: seq<Event>)
    requires Dispatched(config, s, call, answer, round, r, t, sent) && t.log != s.log
    ensures t.log == s.log + [Execution(round, call)]
    ensures !IsTodo(call) && answer.policy.RequireApproval? ==>
      [Approval(call, answer.policy.reason, None, None), ToolStarted(call)] <= sent
    ensures IsTodo(call) || !answer.policy.RequireApproval? ==> [ToolStarted(call)] <= sent
  {
    var v := Decide(config, s.executed, call, answer);
    assert s.log + [] == s.log;
    PrefixesAreOrdered(Opening(call, answer, v), sent, Opening(call, answer, v) + Closing(config, call, answer, v));
    OpeningOfRun(call, answer, v);
    TodoIff(config, s.executed, call, answer);
  }

  lemma TodoIff(config: Config, executed: set<string>, call: ToolCall, answer: Answer)
    requires Runs(Decide(config, executed, call, answer))
    ensures Decide(config, executed, call, answer) == Todo <==> IsTodo(call)
  {
  }

  lemma PrefixesAreOrdered<T>(a: seq<T>, b: seq<T>, c: seq<T>)
    requires a <= c && b <= c && |a| <= |b|
    ensures a <= b
  {
  }

  /** With the redactor of `src/secrets.rs`, no result that a run announces or
      appends spells a credential, those of child agents included; only the fixed
      text for a repeated call is sent as it is. */
  lemma ResultsAreClean(runner: Runner, rounds: seq<Round>, start: seq<Item>, passes: seq<Pass>, n: nat, k: nat,
                        patterns: seq<Secrets.Text>)
    requires IsCalibration(runner.settings.calibration) && Traced(runner, rounds, start, passes)
    requires n < |passes| && k < |passes[n].tail| && passes[n].tail[k].ToolFinished?
    requires Secrets.Proper(patterns) && RedactionTheorems.Clear(patterns, Secrets.RedactionMarker(patterns))
    requires forall text :: runner.config.redact(text) == Secrets.Redact(patterns, Secrets.RedactionMarker(patterns), text)
    ensures passes[n].tail[k].result == DUPLICATE || Secrets.NoMatch(patterns, passes[n].tail[k].result)
    ensures ToolOutput(passes[n].tail[k].call.id, passes[n].tail[k].result) in Outputs(passes[n].tail)
  {
    OkAt(runner, rounds, passes, n);
    var e := passes[n].tail[k];
    assert Redacted(runner.config, e);
    if e.result != DUPLICATE {
      var text :| e.result == runner.config.redact(text);
      RedactionTheorems.RedactionIsClean(patterns, [], text);
    }
    OutputOf(passes[n].tail, k);
  }

  lemma {:induction false} OutputOf(sent: seq<Event>, k: nat)
    requires k < |sent| && sent[k].ToolFinished?
    ensures ToolOutput(sent[k].call.id, sent[k].result) in Outputs(sent)
  {
    if k < |sent| - 1 {
      OutputOf(sent[..|sent| - 1], k);
    }
  }

  /** What is appended with the results is what they say. */
  lemma {:induction false} OutputIsResult(sent: seq<Event>, item: Item)
    requires item in Outputs(sent)
    ensures exists k :: 0 <= k < |sent| && sent[k].ToolFinished? && item == ToolOutput(sent[k].call.id, sent[k].result)
  {
    var n := |sent| - 1;
    if item in Outputs(sent[..n]) {
      OutputIsResult(sent[..n], item);
      var k :| 0 <= k < n && sent[..n][k].ToolFinished? && item == ToolOutput(sent[..n][k].call.id, sent[..n][k].result);
      assert sent[k] == sent[..n][k];
    }
  }

  /** So is every output in the conversation that a pass added. */
  lemma OutputsAreClean(runner: Runner, rounds: seq<Round>, start: seq<Item>, passes: seq<Pass>, n: nat, item: Item,
                        patterns: seq<Secrets.Text>)
    requires IsCalibration(runner.settings.calibration) && Traced(runner, rounds, start, passes)
    requires n < |passes| && item in Outputs(passes[n].tail)
    requires Secrets.Proper(patterns) && RedactionTheorems.Clear(patterns, Secrets.RedactionMarker(patterns))
    requires forall text :: runner.config.redact(text) == Secrets.Redact(patterns, Secrets.RedactionMarker(patterns), text)
    ensures item.ToolOutput? && (item.output == DUPLICATE || Secrets.NoMatch(patterns, item.output))
  {
    OutputIsResult(passes[n].tail, item);
    var k: nat :| k < |passes[n].tail| && passes[n].tail[k].ToolFinished?
      && item == ToolOutput(passes[n].tail[k].call.id, passes[n].tail[k].result);
    ResultsAreClean(runner, rounds, start, passes, n, k, patterns);
  }
}
