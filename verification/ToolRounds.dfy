/** All tool calls of one round, the child agents they start, and what the
    results say (`run_inner` in `src/agent/runner.rs`). */
module ToolRounds {
  import opened Wrappers
  import opened Sequences
  import opened Protocol
  import opened Conversation
  import opened ToolBlocks
  import opened ToolDispatch
  import opened ToolResults
  import opened RoundTheorems

  // ----------------------------------------------------------------- the loop

  /** What one round's calls meet; `children` and `picks` are the results of the
      child agents and which of them finishes next. */
  datatype World = World(answers: nat -> Answer, children: nat -> Answer, picks: nat -> nat)

  /** What can keep a round's calls from being finished. */
  ghost predicate Troubled(world: World, error: string) {
    || (exists n: nat :: Stops(world.answers(n), error))
    || (exists k: nat :: Stops(world.children(k), error))
  }

  /** The first `n` calls have been handled: each was announced and answered
      once, or its child agent is still running. */
  ghost predicate Handled(config: Config, s: Tools, calls: seq<ToolCall>, n: nat, t: Tools, sent: seq<Event>, running: seq<ToolCall>, round: nat)
    requires n <= |calls|
  {
    && t.items == s.items + Outputs(sent) && AllHarmless(sent) && AllRedacted(config, sent)
    && t.log == s.log + Ran(config, round, sent) && NoRepeat(t.log) && Remembered(t.log, t.executed, running, round)
    && Balanced(calls[..n], Outputs(sent), running)
  }

  ghost predicate Balanced(calls: seq<ToolCall>, outputs: seq<Item>, running: seq<ToolCall>) {
    |outputs| + |running| == |calls| && OutputBag(outputs) + CallBag(running) == CallBag(calls)
  }

  lemma BagAssoc<T>(a: multiset<T>, b: multiset<T>, c: multiset<T>)
    ensures a + (b + c) == a + b + c
  {
  }

  lemma {:induction false} CallBagConcat(a: seq<ToolCall>, b: seq<ToolCall>)
    ensures CallBag(a + b) == CallBag(a) + CallBag(b)
    decreases |a|
  {
    if a == [] {
      assert a + b == b;
      assert CallBag(a) + CallBag(b) == CallBag(b);
    } else {
      CallBagConcat(a[1..], b);
      TailOfConcat(a, b);
      BagAssoc(multiset{a[0].id}, CallBag(a[1..]), CallBag(b));
    }
  }

  lemma TailOfConcat<T>(a: seq<T>, b: seq<T>)
    requires a != []
    ensures (a + b)[0] == a[0] && (a + b)[1..] == a[1..] + b
  {
  }

  lemma {:induction false} OutputBagConcat(a: seq<Item>, b: seq<Item>)
    ensures OutputBag(a + b) == OutputBag(a) + OutputBag(b)
    decreases |a|
  {
    if a == [] {
      assert a + b == b;
      assert OutputBag(a) + OutputBag(b) == OutputBag(b);
    } else {
      OutputBagConcat(a[1..], b);
      TailOfConcat(a, b);
      BagAssoc(BagOf(a[0]), OutputBag(a[1..]), OutputBag(b));
    }
  }

  lemma CallBagSnoc(calls: seq<ToolCall>, n: nat)
    requires n < |calls|
    ensures CallBag(calls[..n + 1]) == CallBag(calls[..n]) + multiset{calls[n].id}
  {
    assert calls[..n + 1] == calls[..n] + [calls[n]];
    CallBagConcat(calls[..n], [calls[n]]);
    CallBagOne(calls[n]);
  }

  lemma CallBagOne(call: ToolCall)
    ensures CallBag([call]) == multiset{call.id}
  {
    assert [call][1..] == [];
  }

  lemma FinishedIsOutput(call: ToolCall, text: string)
    ensures Outputs([ToolFinished(call, text)]) == [ToolOutput(call.id, text)]
    ensures OutputBag([ToolOutput(call.id, text)]) == multiset{call.id}
  {
    OutputOfOne(call, text);
    assert [ToolOutput(call.id, text)][1..] == [];
  }

  /** A finished call sends one result, for its own id. */
  lemma ClosingAnswers(config: Config, call: ToolCall, answer: Answer, v: Verdict)
    requires v != Unanswered
    ensures var outputs := Outputs(Opening(call, answer, v) + Closing(config, call, answer, v));
      if v == Spawned then outputs == []
      else |outputs| == 1 && OutputBag(outputs) == multiset{call.id}
  {
    OpeningHasNoOutputs(call, answer, v, Closing(config, call, answer, v));
    match v {
      case Spawned =>
      case Todo =>
        var first := ToolFinished(call, config.redact(answer.result));
        FinishedIsOutput(call, first.result);
        if answer.tasks.Some? {
          OutputsSnoc([first], TodoUpdated(answer.tasks.value));
        } else {
          assert [first] + [] == [first];
        }
      case Duplicate =>
        FinishedIsOutput(call, DUPLICATE);
      case _ =>
        FinishedIsOutput(call, config.redact(Text(call, answer, v)));
    }
  }

  lemma SentIsHarmless(config: Config, call: ToolCall, answer: Answer, v: Verdict, sent: seq<Event>)
    requires sent <= Opening(call, answer, v) + Closing(config, call, answer, v)
    ensures AllHarmless(sent)
  {
    var all := Opening(call, answer, v) + Closing(config, call, answer, v);
    forall k | 0 <= k < |sent| ensures Harmless(sent[k]) {
      assert sent[k] == all[k];
    }
  }

  lemma {:induction false} OutputBagSize(items: seq<Item>)
    requires AllOutputs(items)
    ensures |OutputBag(items)| == |items|
  {
    if items != [] {
      OutputBagSize(items[1..]);
    }
  }

  lemma {:induction false} OutputsAreOutputs(sent: seq<Event>)
    ensures AllOutputs(Outputs(sent))
  {
    if sent != [] {
      OutputsAreOutputs(sent[..|sent| - 1]);
    }
  }

  /** One result for the call, or a child agent that will bring it. */
  ghost predicate AnswersOne(call: ToolCall, outputs: seq<Item>, deferred: bool) {
    if deferred then outputs == [] else |outputs| == 1 && OutputBag(outputs) == multiset{call.id}
  }

  lemma BalancedStep(calls: seq<ToolCall>, n: nat, outputs: seq<Item>, running: seq<ToolCall>, more: seq<Item>, deferred: bool)
    requires n < |calls| && Balanced(calls[..n], outputs, running) && AnswersOne(calls[n], more, deferred)
    ensures Balanced(calls[..n + 1], outputs + more, if deferred then running + [calls[n]] else running)
  {
    CallBagSnoc(calls, n);
    if deferred {
      assert outputs + more == outputs;
      CallBagConcat(running, [calls[n]]);
      CallBagOne(calls[n]);
      BagAssoc(OutputBag(outputs), CallBag(running), multiset{calls[n].id});
    } else {
      OutputBagConcat(outputs, more);
      BagSwap(OutputBag(outputs), OutputBag(more), CallBag(running));
    }
  }

  lemma BagSwap<T>(a: multiset<T>, b: multiset<T>, c: multiset<T>)
    ensures a + b + c == a + c + b
  {
  }

  lemma DispatchAnswers(config: Config, s: Tools, call: ToolCall, answer: Answer, round: nat, r: Result<bool, string>, t: Tools, sent: seq<Event>)
    requires Dispatched(config, s, call, answer, round, r, t, sent)
    ensures t.items == s.items + Outputs(sent) && AllHarmless(sent) && AllRedacted(config, sent)
    ensures r.Ok? ==> AnswersOne(call, Outputs(sent), r.value)
  {
    var v := Decide(config, s.executed, call, answer);
    ClosingIsRedacted(config, call, answer, v);
    PrefixIsRedacted(config, sent, Opening(call, answer, v) + Closing(config, call, answer, v));
    SentIsHarmless(config, call, answer, v, sent);
    if r.Ok? {
      ClosingAnswers(config, call, answer, v);
    }
  }

  lemma AppendSent(config: Config, s: Tools, t: Tools, sent: seq<Event>, u: Tools, more: seq<Event>)
    requires t.items == s.items + Outputs(sent) && AllHarmless(sent) && AllRedacted(config, sent)
    requires u.items == t.items + Outputs(more) && AllHarmless(more) && AllRedacted(config, more)
    ensures u.items == s.items + Outputs(sent + more) && AllHarmless(sent + more) && AllRedacted(config, sent + more)
  {
    RedactedConcat(config, sent, more);
    OutputsConcat(sent, more);
    HarmlessConcat(sent, more);
    Assoc(s.items, Outputs(sent), Outputs(more));
  }

  lemma AppendRan(config: Config, round: nat, s: Tools, t: Tools, sent: seq<Event>, u: Tools, more: seq<Event>)
    requires t.log == s.log + Ran(config, round, sent) && u.log == t.log + Ran(config, round, more)
    ensures u.log == s.log + Ran(config, round, sent + more)
  {
    RanConcat(config, round, sent, more);
    Assoc(s.log, Ran(config, round, sent), Ran(config, round, more));
  }

  lemma HarmlessConcat(a: seq<Event>, b: seq<Event>)
    requires AllHarmless(a) && AllHarmless(b)
    ensures AllHarmless(a + b)
  {
    forall k | 0 <= k < |a + b| ensures Harmless((a + b)[k]) {
      if k < |a| {
        assert Harmless(a[k]);
      } else {
        assert Harmless(b[k - |a|]);
      }
    }
  }

  /** One handled call keeps `Handled`. */
  lemma HandledStep(config: Config, s: Tools, calls: seq<ToolCall>, n: nat, t: Tools, sent: seq<Event>, running: seq<ToolCall>,
                    answer: Answer, round: nat, r: Result<bool, string>, u: Tools, more: seq<Event>)
    requires n < |calls| && Handled(config, s, calls, n, t, sent, running, round)
    requires Dispatched(config, t, calls[n], answer, round, r, u, more)
    ensures u.items == s.items + Outputs(sent + more) && AllHarmless(sent + more) && AllRedacted(config, sent + more)
    ensures u.log == s.log + Ran(config, round, sent + more) && NoRepeat(u.log)
    ensures r.Ok? ==> Handled(config, s, calls, n + 1, u, sent + more, if r.value then running + [calls[n]] else running, round)
  {
    DispatchAnswers(config, t, calls[n], answer, round, r, u, more);
    DispatchKeepsLog(config, t, calls[n], answer, round, r, u, more, running);
    AppendSent(config, s, t, sent, u, more);
    DispatchedRan(config, t, calls[n], answer, round, r, u, more);
    AppendRan(config, round, s, t, sent, u, more);
    if r.Ok? {
      OutputsConcat(sent, more);
      BalancedStep(calls, n, Outputs(sent), running, Outputs(more), r.value);
    }
  }

  lemma DispatchKeepsLog(config: Config, s: Tools, call: ToolCall, answer: Answer, round: nat, r: Result<bool, string>, t: Tools,
                         sent: seq<Event>, running: seq<ToolCall>)
    requires NoRepeat(s.log) && Remembered(s.log, s.executed, running, round)
    requires Dispatched(config, s, call, answer, round, r, t, sent)
    ensures NoRepeat(t.log)
    ensures r.Ok? ==> Remembered(t.log, t.executed, if r.value then running + [call] else running, round)
  {
    var v := Decide(config, s.executed, call, answer);
    if Runs(v) {
      RunOnce(s.log, s.executed, running, round, call);
    }
  }

  // ----------------------------------------------------------- child agents

  function NoticeEvent(notice: Notice): Event {
    match notice
    case ChildChanged => SessionsChanged
    case ChildProgress(child, status, tool) => ChildSessionProgress(child, status, tool)
    case ChildAsks(call, reason, child, title) => Approval(call, reason, Some(child), Some(title))
  }

  function NoticeEvents(notices: seq<Notice>): seq<Event> {
    if notices == [] then [] else NoticeEvents(notices[..|notices| - 1]) + [NoticeEvent(notices[|notices| - 1])]
  }

  lemma {:induction false} NoticesAreQuiet(notices: seq<Notice>)
    ensures AllHarmless(NoticeEvents(notices)) && Outputs(NoticeEvents(notices)) == []
    ensures forall k :: 0 <= k < |NoticeEvents(notices)| ==>
      !NoticeEvents(notices)[k].ToolStarted? && !NoticeEvents(notices)[k].ToolFinished?
  {
    if notices != [] {
      var before, last := NoticeEvents(notices[..|notices| - 1]), NoticeEvent(notices[|notices| - 1]);
      NoticesAreQuiet(notices[..|notices| - 1]);
      OutputsSnoc(before, last);
      HarmlessConcat(before, [last]);
    }
  }

  lemma FinishedAnswers(call: ToolCall, text: string)
    ensures AllHarmless([ToolFinished(call, text)])
    ensures AnswersOne(call, Outputs([ToolFinished(call, text)]), false)
  {
    FinishedIsOutput(call, text);
  }

  /** The next child agent to finish: reports what it sent and its result. */
  method FinishChild(config: Config, s: Tools, call: ToolCall, answer: Answer)
    returns (r: Result<(), string>, t: Tools, sent: seq<Event>)
    ensures t.items == s.items + Outputs(sent) && AllHarmless(sent) && AllRedacted(config, sent) && t.log == s.log
    ensures forall k :: 0 <= k < |sent| ==> !sent[k].ToolStarted?
    ensures r.Ok? ==> AnswersOne(call, Outputs(sent), false) && t.executed == s.executed + {Signature(call)}
    ensures sent == NoticeEvents(answer.notices) + Announced(config, call, answer.result, answer.fault)
    ensures r.Ok? ==> !answer.fault.FinishFails?
    ensures r.Err? ==> Stops(answer, r.error)
  {
    var finished;
    r, t, finished := CompleteTool(config, s, call, answer.result, answer.fault);
    sent := NoticeEvents(answer.notices) + finished;
    ReportSends(config, call, answer);
  }

  lemma ReportSends(config: Config, call: ToolCall, answer: Answer)
    ensures var finished := Announced(config, call, answer.result, answer.fault);
      var sent := NoticeEvents(answer.notices) + finished;
      && Outputs(sent) == Outputs(finished) && AllHarmless(sent) && AllRedacted(config, sent)
      && (forall k :: 0 <= k < |sent| ==> !sent[k].ToolStarted?)
      && (!answer.fault.FinishFails? ==> AnswersOne(call, Outputs(sent), false))
  {
    var finished := Announced(config, call, answer.result, answer.fault);
    NoticesAreQuiet(answer.notices);
    FinishedAnswers(call, config.redact(answer.result));
    assert AllRedacted(config, finished) && AllHarmless(finished);
    BehindNotices(config, NoticeEvents(answer.notices), finished);
  }

  lemma BehindNotices(config: Config, notices: seq<Event>, finished: seq<Event>)
    requires AllHarmless(notices) && Outputs(notices) == []
    requires forall k :: 0 <= k < |notices| ==> !notices[k].ToolStarted? && !notices[k].ToolFinished?
    requires AllHarmless(finished) && AllRedacted(config, finished) && forall k :: 0 <= k < |finished| ==> !finished[k].ToolStarted?
    ensures var sent := notices + finished;
      && Outputs(sent) == Outputs(finished) && AllHarmless(sent) && AllRedacted(config, sent)
      && (forall k :: 0 <= k < |sent| ==> !sent[k].ToolStarted?)
  {
    OutputsConcat(notices, finished);
    HarmlessConcat(notices, finished);
    RedactedConcat(config, notices, finished);
  }

  function Without(running: seq<ToolCall>, i: nat): seq<ToolCall>
    requires i < |running|
  {
    running[..i] + running[i + 1..]
  }

  lemma BagOfThree(a: seq<ToolCall>, call: ToolCall, b: seq<ToolCall>)
    ensures CallBag(a + [call] + b) == CallBag(a + b) + multiset{call.id}
  {
    CallBagConcat(a + [call], b);
    CallBagConcat(a, [call]);
    CallBagConcat(a, b);
    CallBagOne(call);
  }

  lemma WithoutBag(running: seq<ToolCall>, i: nat)
    requires i < |running|
    ensures CallBag(running) == CallBag(Without(running, i)) + multiset{running[i].id}
  {
    BagOfThree(running[..i], running[i], running[i + 1..]);
    Reassemble(running, i);
  }

  lemma FinishedBalances(calls: seq<ToolCall>, outputs: seq<Item>, running: seq<ToolCall>, i: nat, more: seq<Item>)
    requires i < |running| && Balanced(calls, outputs, running) && AnswersOne(running[i], more, false)
    ensures Balanced(calls, outputs + more, Without(running, i))
  {
    WithoutBag(running, i);
    OutputBagConcat(outputs, more);
  }

  lemma FinishedIsRemembered(log: seq<Execution>, executed: set<string>, running: seq<ToolCall>, round: nat, i: nat)
    requires i < |running| && Remembered(log, executed, running, round)
    ensures Remembered(log, executed + {Signature(running[i])}, Without(running, i), round)
  {
    forall a | 0 <= a < |log| && log[a].call in running
      ensures log[a].call == running[i] || log[a].call in Without(running, i)
    {
      var k :| 0 <= k < |running| && running[k] == log[a].call;
      if k != i {
        assert Without(running, i)[if k < i then k else k - 1] == running[k];
      }
    }
  }

  lemma AppendQuiet(config: Config, round: nat, s: Tools, t: Tools, sent: seq<Event>, u: Tools, more: seq<Event>)
    requires t.log == s.log + Ran(config, round, sent) && u.log == t.log
    requires forall k :: 0 <= k < |more| ==> !more[k].ToolStarted?
    ensures u.log == s.log + Ran(config, round, sent + more)
  {
    NothingRan(config, round, more);
    assert t.log + [] == t.log;
    AppendRan(config, round, s, t, sent, u, more);
  }

  lemma FinishedStep(config: Config, s: Tools, calls: seq<ToolCall>, t: Tools, sent: seq<Event>, running: seq<ToolCall>, round: nat, i: nat, u: Tools, more: seq<Event>)
    requires Handled(config, s, calls, |calls|, t, sent, running, round) && i < |running|
    requires u.items == t.items + Outputs(more) && AllHarmless(more) && AllRedacted(config, more) && u.log == t.log
    requires forall k :: 0 <= k < |more| ==> !more[k].ToolStarted?
    requires AnswersOne(running[i], Outputs(more), false) && u.executed == t.executed + {Signature(running[i])}
    ensures Handled(config, s, calls, |calls|, u, sent + more, Without(running, i), round)
  {
    AppendSent(config, s, t, sent, u, more);
    AppendQuiet(config, round, s, t, sent, u, more);
    OutputsConcat(sent, more);
    FinishedBalances(calls[..|calls|], Outputs(sent), running, i, Outputs(more));
    FinishedIsRemembered(t.log, t.executed, running, round, i);
  }

  // ------------------------------------------------------- what results say

  /** It is the result of the `n`th call, or the report of its child agent;
      `known` were the results announced before, `executed` those when the round
      began. */
  ghost predicate ToldBy(config: Config, world: World, calls: seq<ToolCall>, executed: set<string>, known: set<string>, e: Event, n: nat)
    requires e.ToolFinished?
  {
    && n < |calls| && e.call == calls[n]
    && (|| Says(config, known, calls[n], world.answers(n), e.result)
        || (MaySpawn(config, calls[n], world.answers(n)) && Signature(calls[n]) !in executed && Reported(config, world, e.result)))
  }

  ghost predicate Reported(config: Config, world: World, result: string) {
    exists m: nat :: result == config.redact(world.children(m).result)
  }

  ghost predicate ToldOne(config: Config, world: World, calls: seq<ToolCall>, executed: set<string>, known: set<string>, e: Event) {
    e.ToolFinished? ==> exists n: nat :: ToldBy(config, world, calls, executed, known, e, n)
  }

  /** Every announced result is that of one of the calls. */
  ghost predicate Told(config: Config, world: World, calls: seq<ToolCall>, executed: set<string>, sent: seq<Event>) {
    forall k :: 0 <= k < |sent| ==> ToldOne(config, world, calls, executed, executed + Known(sent[..k]), sent[k])
  }

  /** The child agent was started for one of the calls. */
  ghost predicate StartedFor(config: Config, world: World, calls: seq<ToolCall>, executed: set<string>, call: ToolCall) {
    exists n: nat :: n < |calls| && calls[n] == call && MaySpawn(config, call, world.answers(n)) && Signature(call) !in executed
  }

  ghost predicate Heard(config: Config, world: World, calls: seq<ToolCall>, s: Tools, t: Tools, sent: seq<Event>, running: seq<ToolCall>) {
    && Told(config, world, calls, s.executed, sent) && t.executed == s.executed + Known(sent)
    && forall i :: 0 <= i < |running| ==> StartedFor(config, world, calls, s.executed, running[i])
  }

  lemma ToldEarlier(config: Config, world: World, calls: seq<ToolCall>, executed: set<string>, more: set<string>, known: set<string>, e: Event)
    requires ToldOne(config, world, calls, executed + more, known, e)
    ensures ToldOne(config, world, calls, executed, known, e)
  {
    if e.ToolFinished? {
      var n: nat :| ToldBy(config, world, calls, executed + more, known, e, n);
      assert ToldBy(config, world, calls, executed, known, e, n);
    }
  }

  /** The event at `k` of two parts joined, and what was done before it. */
  lemma Before(sent: seq<Event>, more: seq<Event>, k: nat)
    requires k < |sent + more|
    ensures k < |sent| ==> (sent + more)[k] == sent[k] && (sent + more)[..k] == sent[..k]
    ensures k >= |sent| ==> (sent + more)[k] == more[k - |sent|] && Known((sent + more)[..k]) == Known(sent) + Known(more[..k - |sent|])
  {
    if k < |sent| {
      assert (sent + more)[..k] == sent[..k];
    } else {
      assert (sent + more)[..k] == sent + more[..k - |sent|];
      KnownConcat(sent, more[..k - |sent|]);
    }
  }

  lemma ToldConcat(config: Config, world: World, calls: seq<ToolCall>, executed: set<string>, sent: seq<Event>, more: seq<Event>)
    requires Told(config, world, calls, executed, sent) && Told(config, world, calls, executed + Known(sent), more)
    ensures Told(config, world, calls, executed, sent + more)
  {
    var all := sent + more;
    forall k | 0 <= k < |all| ensures ToldOne(config, world, calls, executed, executed + Known(all[..k]), all[k]) {
      Before(sent, more, k);
      if k >= |sent| {
        var known := executed + Known(sent) + Known(more[..k - |sent|]);
        assert known == executed + Known(all[..k]);
        ToldEarlier(config, world, calls, executed, Known(sent), known, all[k]);
      }
    }
  }

  lemma DispatchIsTold(config: Config, world: World, calls: seq<ToolCall>, n: nat, t: Tools, round: nat, r: Result<bool, string>,
                       u: Tools, more: seq<Event>)
    requires n < |calls| && Dispatched(config, t, calls[n], world.answers(n), round, r, u, more)
    ensures Told(config, world, calls, t.executed, more)
    ensures r.Ok? ==> u.executed == t.executed + Known(more)
    ensures r.Ok? && r.value ==> MaySpawn(config, calls[n], world.answers(n)) && Signature(calls[n]) !in t.executed
  {
    DispatchTells(config, t, calls[n], world.answers(n), round, r, u, more);
    TellsAreTold(config, world, calls, n, t.executed, more);
  }

  lemma TellsAreTold(config: Config, world: World, calls: seq<ToolCall>, n: nat, executed: set<string>, more: seq<Event>)
    requires n < |calls| && forall k :: 0 <= k < |more| ==> TellsOf(config, executed, calls[n], world.answers(n), more, k)
    ensures Told(config, world, calls, executed, more)
  {
    forall k | 0 <= k < |more| ensures ToldOne(config, world, calls, executed, executed + Known(more[..k]), more[k]) {
      assert TellsOf(config, executed, calls[n], world.answers(n), more, k);
      if more[k].ToolFinished? {
        assert executed + {} == executed;
        assert ToldBy(config, world, calls, executed, executed, more[k], n);
      }
    }
  }

  lemma HeardStep(config: Config, world: World, s: Tools, calls: seq<ToolCall>, n: nat, t: Tools, sent: seq<Event>, running: seq<ToolCall>,
                  round: nat, r: Result<bool, string>, u: Tools, more: seq<Event>)
    requires n < |calls| && Heard(config, world, calls, s, t, sent, running)
    requires Dispatched(config, t, calls[n], world.answers(n), round, r, u, more)
    ensures Told(config, world, calls, s.executed, sent + more)
    ensures r.Ok? ==> Heard(config, world, calls, s, u, sent + more, if r.value then running + [calls[n]] else running)
  {
    DispatchIsTold(config, world, calls, n, t, round, r, u, more);
    HeardMore(config, world, s, calls, n, t, sent, running, u, more, r.Ok?, r.Ok? && r.value);
  }

  lemma HeardMore(config: Config, world: World, s: Tools, calls: seq<ToolCall>, n: nat, t: Tools, sent: seq<Event>, running: seq<ToolCall>,
                  u: Tools, more: seq<Event>, fine: bool, deferred: bool)
    requires n < |calls| && Heard(config, world, calls, s, t, sent, running) && Told(config, world, calls, t.executed, more)
    requires fine ==> u.executed == t.executed + Known(more)
    requires deferred ==> MaySpawn(config, calls[n], world.answers(n)) && Signature(calls[n]) !in t.executed
    ensures Told(config, world, calls, s.executed, sent + more)
    ensures fine ==> Heard(config, world, calls, s, u, sent + more, if deferred then running + [calls[n]] else running)
  {
    ToldConcat(config, world, calls, s.executed, sent, more);
    KnownConcat(sent, more);
    if deferred {
      assert StartedFor(config, world, calls, s.executed, calls[n]);
    }
  }

  lemma ReportSays(config: Config, world: World, call: ToolCall, m: nat, more: seq<Event>, k: nat)
    requires more == NoticeEvents(world.children(m).notices)
      + Announced(config, call, world.children(m).result, world.children(m).fault)
    requires k < |more| && more[k].ToolFinished?
    ensures more[k].call == call && Reported(config, world, more[k].result)
  {
    NoticesAreQuiet(world.children(m).notices);
  }

  lemma ReportIsTold(config: Config, world: World, calls: seq<ToolCall>, executed: set<string>, known: set<string>, call: ToolCall,
                     m: nat, more: seq<Event>, k: nat)
    requires StartedFor(config, world, calls, executed, call) && k < |more|
    requires more == NoticeEvents(world.children(m).notices)
      + Announced(config, call, world.children(m).result, world.children(m).fault)
    ensures ToldOne(config, world, calls, executed, known, more[k])
  {
    if more[k].ToolFinished? {
      ReportSays(config, world, call, m, more, k);
      var n: nat :| n < |calls| && calls[n] == call && MaySpawn(config, call, world.answers(n)) && Signature(call) !in executed;
      assert ToldBy(config, world, calls, executed, known, more[k], n);
    }
  }

  lemma ReportTold(config: Config, world: World, calls: seq<ToolCall>, executed: set<string>, sent: seq<Event>, call: ToolCall,
                   m: nat, more: seq<Event>)
    requires Told(config, world, calls, executed, sent) && StartedFor(config, world, calls, executed, call)
    requires more == NoticeEvents(world.children(m).notices)
      + Announced(config, call, world.children(m).result, world.children(m).fault)
    ensures Told(config, world, calls, executed, sent + more)
  {
    var all := sent + more;
    forall k | 0 <= k < |all| ensures ToldOne(config, world, calls, executed, executed + Known(all[..k]), all[k]) {
      Before(sent, more, k);
      if k >= |sent| {
        ReportIsTold(config, world, calls, executed, executed + Known(all[..k]), call, m, more, k - |sent|);
      }
    }
  }

  lemma ReportKnown(notices: seq<Notice>, e: Event)
    requires e.ToolFinished?
    ensures Known(NoticeEvents(notices) + [e]) == {Signature(e.call)}
  {
    NoticesAreQuiet(notices);
    NothingKnown(NoticeEvents(notices));
    KnownSnoc(NoticeEvents(notices), e);
  }

  lemma HeardFinished(config: Config, world: World, calls: seq<ToolCall>, s: Tools, t: Tools, sent: seq<Event>, running: seq<ToolCall>,
                      i: nat, m: nat, r: Result<(), string>, u: Tools, more: seq<Event>)
    requires i < |running| && Heard(config, world, calls, s, t, sent, running)
    requires more == NoticeEvents(world.children(m).notices)
      + Announced(config, running[i], world.children(m).result, world.children(m).fault)
    requires r.Ok? ==> !world.children(m).fault.FinishFails? && u.executed == t.executed + {Signature(running[i])}
    ensures Told(config, world, calls, s.executed, sent + more)
    ensures r.Ok? ==> Heard(config, world, calls, s, u, sent + more, Without(running, i))
  {
    ReportTold(config, world, calls, s.executed, sent, running[i], m, more);
    if r.Ok? {
      ReportKnown(world.children(m).notices, ToolFinished(running[i], config.redact(world.children(m).result)));
      KnownConcat(sent, more);
      StillStarted(config, world, calls, s.executed, running, i);
    }
  }

  lemma StillStarted(config: Config, world: World, calls: seq<ToolCall>, executed: set<string>, running: seq<ToolCall>, i: nat)
    requires i < |running| && forall k :: 0 <= k < |running| ==> StartedFor(config, world, calls, executed, running[k])
    ensures forall k :: 0 <= k < |Without(running, i)| ==> StartedFor(config, world, calls, executed, Without(running, i)[k])
  {
    forall k | 0 <= k < |Without(running, i)| ensures StartedFor(config, world, calls, executed, Without(running, i)[k]) {
      assert Without(running, i)[k] == running[if k < i then k else k + 1];
    }
  }

  /** Awaits the deferred child agents, in the order in which they finish. */
  method FinishChildren(config: Config, ghost s: Tools, ghost calls: seq<ToolCall>, start: Tools, earlier: seq<Event>,
                        spawned: seq<ToolCall>, world: World, ghost round: nat)
    returns (r: Result<(), string>, t: Tools, sent: seq<Event>)
    requires Handled(config, s, calls, |calls|, start, earlier, spawned, round) && Heard(config, world, calls, s, start, earlier, spawned)
    ensures t.items == s.items + Outputs(sent) && AllHarmless(sent) && AllRedacted(config, sent)
    ensures t.log == s.log + Ran(config, round, sent) && NoRepeat(t.log)
    ensures Told(config, world, calls, s.executed, sent)
    ensures r.Ok? ==> Handled(config, s, calls, |calls|, t, sent, [], round) && t.executed == s.executed + Known(sent)
    ensures r.Err? ==> Troubled(world, r.error)
  {
    t, sent := start, earlier;
    var running, k := spawned, 0;
    while running != []
      invariant Handled(config, s, calls, |calls|, t, sent, running, round) && Heard(config, world, calls, s, t, sent, running)
      decreases |running|
    {
      var i := world.picks(k) % |running|;
      var done, u, more := FinishChild(config, t, running[i], world.children(k));
      HeardFinished(config, world, calls, s, t, sent, running, i, k, done, u, more);
      if done.Err? {
        AppendSent(config, s, t, sent, u, more);
        AppendQuiet(config, round, s, t, sent, u, more);
        return Err(done.error), u, sent + more;
      }
      FinishedStep(config, s, calls, t, sent, running, round, i, u, more);
      t, sent := u, sent + more;
      running, k := Without(running, i), k + 1;
    }
    r := Ok(());
  }

  lemma HandledAll(config: Config, s: Tools, calls: seq<ToolCall>, t: Tools, sent: seq<Event>, round: nat)
    requires Handled(config, s, calls, |calls|, t, sent, [], round)
    ensures Answers(Outputs(sent), calls)
  {
    assert calls[..|calls|] == calls;
    OutputsAreOutputs(sent);
  }

  /** All calls of a round. If none fails, each has exactly one output. */
  method DispatchAll(config: Config, s: Tools, calls: seq<ToolCall>, world: World, round: nat)
    returns (r: Result<(), string>, t: Tools, sent: seq<Event>)
    requires NoRepeat(s.log) && Remembered(s.log, s.executed, [], round)
    ensures t.items == s.items + Outputs(sent) && AllHarmless(sent) && AllRedacted(config, sent)
    ensures t.log == s.log + Ran(config, round, sent) && NoRepeat(t.log)
    ensures Told(config, world, calls, s.executed, sent)
    ensures r.Ok? ==> Answers(Outputs(sent), calls) && Remembered(t.log, t.executed, [], round) && t.executed == s.executed + Known(sent)
    ensures r.Err? ==> Troubled(world, r.error)
  {
    t, sent := s, [];
    var spawnTasks: seq<ToolCall> := [];
    assert s.executed + Known([]) == s.executed;
    assert calls[..0] == [] && s.items + Outputs([]) == s.items && s.log + Ran(config, round, []) == s.log;
    for n := 0 to |calls|
      invariant Handled(config, s, calls, n, t, sent, spawnTasks, round) && Heard(config, world, calls, s, t, sent, spawnTasks)
    {
      var done, u, more := DispatchCall(config, t, calls[n], world.answers(n), round);
      HandledStep(config, s, calls, n, t, sent, spawnTasks, world.answers(n), round, done, u, more);
      HeardStep(config, world, s, calls, n, t, sent, spawnTasks, round, done, u, more);
      t, sent := u, sent + more;
      if done.Err? {
        return Err(done.error), t, sent;
      }
      if done.value {
        spawnTasks := spawnTasks + [calls[n]];
      }
    }
    r, t, sent := FinishChildren(config, s, calls, t, sent, spawnTasks, world, round);
    if r.Ok? {
      HandledAll(config, s, calls, t, sent, round);
    }
  }
}
