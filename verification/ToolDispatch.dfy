/** Carrying out one round's tool calls (`src/agent/runner.rs`,
    `complete_tool` in `src/agent/tool_loop.rs`). */
module ToolDispatch {
  import opened Wrappers
  import opened Sequences
  import opened Protocol
  import opened Conversation
  import opened ToolBlocks
  import opened RoundTheorems
  import CanonicalJson
  import Utf8

  datatype Policy = Allow | Deny(reason: string) | RequireApproval(reason: string)

  /** The storage call that fails while a tool call is handled, if any. */
  datatype Fault = NoFault | BeginFails(error: string) | FinishFails(error: string) | AppendFails(error: string)

  /** What a child tells the consumers while it runs. */
  datatype Notice =
    | ChildChanged
    | ChildProgress(child: string, status: string, tool: Option<string>)
    | ChildAsks(call: ToolCall, reason: string, child: string, title: string)

  /** What the world answers to one tool call: the policy, the user (`None` when
      the approval channel closed), the tool and the storage. */
  datatype Answer = Answer(
    policy: Policy, reply: Option<bool>, result: string, tasks: Option<seq<TodoTask>>, notices: seq<Notice>, fault: Fault)

  /** `redact` is `redact_cached`; `role` lists the tools a child role may use. */
  datatype Config = Config(redact: string -> string, role: Option<set<string>>, depth: nat)

  datatype Execution = Execution(round: nat, call: ToolCall)

  /** The part of a run that tool calls change, and the log of what was run. */
  datatype Tools = Tools(items: seq<Item>, executed: set<string>, log: seq<Execution>)

  function Signature(call: ToolCall): string {
    call.name + ":" + CanonicalJson.Canonical(call.arguments)
  }

  // ---------------------------------------------------------- specification

  datatype Verdict = Duplicate | RoleDenied | Todo | PolicyDenied | Unanswered | Rejected | SpawnRefused | Spawned | Executed

  function Decide(config: Config, executed: set<string>, call: ToolCall, answer: Answer): Verdict {
    if Signature(call) in executed then Duplicate
    else if config.role.Some? && call.name !in config.role.value then RoleDenied
    else if call.name == "todo_read" || call.name == "todo_write" then Todo
    else if answer.policy.Deny? then PolicyDenied
    else if answer.policy.RequireApproval? && answer.reply.None? then Unanswered
    else if answer.policy.RequireApproval? && !answer.reply.value then Rejected
    else if call.name == "agent_spawn" then if config.depth >= 1 then SpawnRefused else Spawned
    else Executed
  }

  predicate Runs(v: Verdict) {
    v.Todo? || v.Spawned? || v.Executed?
  }

  function Asked(call: ToolCall, answer: Answer, v: Verdict): seq<Event> {
    if answer.policy.RequireApproval? && (v.Unanswered? || v.Rejected? || v.SpawnRefused? || v.Spawned? || v.Executed?)
    then [Approval(call, answer.policy.reason, None, None)] else []
  }

  predicate Starts(v: Verdict) {
    v.Todo? || v.SpawnRefused? || v.Spawned? || v.Executed?
  }

  function Opening(call: ToolCall, answer: Answer, v: Verdict): seq<Event> {
    Asked(call, answer, v) + (if Starts(v) then [ToolStarted(call)] else [])
  }

  const DUPLICATE := "Duplicate tool call was not executed. Reuse the previous result or choose a different action."

  function Text(call: ToolCall, answer: Answer, v: Verdict): string {
    match v
    case RoleDenied => "denied by policy: child role does not allow " + call.name
    case PolicyDenied => "denied by policy: " + (if answer.policy.Deny? then answer.policy.reason else "")
    case Rejected => "rejected by user"
    case SpawnRefused => "child agents cannot recursively spawn another child"
    case _ => answer.result
  }

  /** What is sent when the call is finished at once. */
  function Closing(config: Config, call: ToolCall, answer: Answer, v: Verdict): seq<Event>
  {
    match v
    case Spawned => []
    case Unanswered => []
    case Duplicate => [ToolFinished(call, DUPLICATE)]
    case Todo => [ToolFinished(call, config.redact(answer.result))] + (if answer.tasks.Some? then [TodoUpdated(answer.tasks.value)] else [])
    case _ => [ToolFinished(call, config.redact(Text(call, answer, v)))]
  }

  /** The conversation items that go with the announced results. */
  function Outputs(sent: seq<Event>): seq<Item> {
    if sent == [] then []
    else
      var last := sent[|sent| - 1];
      Outputs(sent[..|sent| - 1]) + (if last.ToolFinished? then [ToolOutput(last.call.id, last.result)] else [])
  }

  lemma OutputsSnoc(sent: seq<Event>, e: Event)
    ensures Outputs(sent + [e]) == Outputs(sent) + (if e.ToolFinished? then [ToolOutput(e.call.id, e.result)] else [])
  {
    assert (sent + [e])[..|sent|] == sent;
  }

  lemma {:induction false} OutputsConcat(a: seq<Event>, b: seq<Event>)
    ensures Outputs(a + b) == Outputs(a) + Outputs(b)
    decreases |b|
  {
    if b == [] {
      assert a + b == a;
    } else {
      OutputsConcat(a, b[..|b| - 1]);
      assert (a + b)[..|a + b| - 1] == a + b[..|b| - 1];
    }
  }

  /** A result is redacted, unless it is the fixed text for a repeated call. */
  ghost predicate Redacted(config: Config, e: Event) {
    e.ToolFinished? && e.result != DUPLICATE ==> exists text :: e.result == config.redact(text)
  }

  ghost predicate AllRedacted(config: Config, sent: seq<Event>) {
    forall k :: 0 <= k < |sent| ==> Redacted(config, sent[k])
  }

  lemma RedactedConcat(config: Config, a: seq<Event>, b: seq<Event>)
    requires AllRedacted(config, a) && AllRedacted(config, b)
    ensures AllRedacted(config, a + b)
  {
    forall k | 0 <= k < |a + b| ensures Redacted(config, (a + b)[k]) {
      if k < |a| {
        assert Redacted(config, a[k]);
      } else {
        assert Redacted(config, b[k - |a|]);
      }
    }
  }

  lemma ClosingIsRedacted(config: Config, call: ToolCall, answer: Answer, v: Verdict)
    ensures AllRedacted(config, Opening(call, answer, v) + Closing(config, call, answer, v))
  {
    assert AllRedacted(config, Opening(call, answer, v));
    assert AllRedacted(config, Closing(config, call, answer, v));
    RedactedConcat(config, Opening(call, answer, v), Closing(config, call, answer, v));
  }

  lemma PrefixIsRedacted(config: Config, sent: seq<Event>, all: seq<Event>)
    requires sent <= all && AllRedacted(config, all)
    ensures AllRedacted(config, sent)
  {
    forall k | 0 <= k < |sent| ensures Redacted(config, sent[k]) {
      assert sent[k] == all[k];
    }
  }

  // ---------------------------------------------------------------- one call

  /** What finishing a call announces. */
  function Announced(config: Config, call: ToolCall, result: string, fault: Fault): seq<Event> {
    if fault.FinishFails? then [] else [ToolFinished(call, config.redact(result))]
  }

  predicate Interrupts(fault: Fault) {
    fault.FinishFails? || fault.AppendFails?
  }

  lemma OutputOfOne(call: ToolCall, result: string)
    ensures Outputs([ToolFinished(call, result)]) == [ToolOutput(call.id, result)]
  {
    OutputsSnoc([], ToolFinished(call, result));
    assert [] + [ToolFinished(call, result)] == [ToolFinished(call, result)];
  }

  /** Stores and announces the result, then appends it, then remembers the
      call's signature. */
  method CompleteTool(config: Config, s: Tools, call: ToolCall, result: string, fault: Fault)
    returns (r: Result<(), string>, t: Tools, sent: seq<Event>)
    ensures sent == Announced(config, call, result, fault)
    ensures t == Tools(s.items + Outputs(sent), if r.Ok? then s.executed + {Signature(call)} else s.executed, s.log)
    ensures r == if Interrupts(fault) then Err(fault.error) else Ok(())
  {
    var text := config.redact(result);
    sent, t := [], s;
    if fault.FinishFails? {
      assert s.items + [] == s.items;
      return Err(fault.error), t, sent;
    }
    OutputOfOne(call, text);
    sent := [ToolFinished(call, text)];
    t := t.(items := t.items + [ToolOutput(call.id, text)]);
    if fault.AppendFails? {
      return Err(fault.error), t, sent;
    }
    t := t.(executed := t.executed + {Signature(call)});
    r := Ok(());
  }

  /** A storage call failed, or the approval channel closed. */
  predicate Stops(answer: Answer, error: string) {
    || (!answer.fault.NoFault? && answer.fault.error == error)
    || (answer.policy.RequireApproval? && answer.reply.None? && error == "cancelled: approval channel closed")
  }

  /** Everything one step of the dispatch loop may do; `Ok(true)` defers a child
      agent. */
  ghost predicate Dispatched(config: Config, s: Tools, call: ToolCall, answer: Answer, round: nat,
                             r: Result<bool, string>, t: Tools, sent: seq<Event>)
  {
    var v := Decide(config, s.executed, call, answer);
    && Carried(Opening(call, answer, v), Closing(config, call, answer, v), Runs(v), v == Spawned, s, call, answer, round, r, t, sent)
    && (v == Unanswered ==> r == Err("cancelled: approval channel closed") && sent == Asked(call, answer, v))
  }

  /** Announces with `opening`, perhaps runs, and finishes with `closing`; storage
      may stop it. */
  ghost predicate Carried(opening: seq<Event>, closing: seq<Event>, runs: bool, defers: bool,
                          s: Tools, call: ToolCall, answer: Answer, round: nat, r: Result<bool, string>, t: Tools, sent: seq<Event>)
  {
    && sent <= opening + closing
    && t.items == s.items + Outputs(sent)
    && t.log == s.log + (if runs && |sent| >= |opening| then [Execution(round, call)] else [])
    && (r.Ok? ==>
      && sent == opening + closing && (r.value <==> defers)
      && t.executed == if defers then s.executed else s.executed + {Signature(call)})
    && (r.Err? ==> Stops(answer, r.error))
  }

  /** What is sent before the result announces none. */
  lemma OpeningHasNoOutputs(call: ToolCall, answer: Answer, v: Verdict, finished: seq<Event>)
    ensures Outputs(Asked(call, answer, v)) == []
    ensures Outputs(Opening(call, answer, v) + finished) == Outputs(finished)
  {
    OutputsConcat(Asked(call, answer, v), Opening(call, answer, v)[|Asked(call, answer, v)|..]);
    OutputsConcat(Opening(call, answer, v), finished);
  }

  lemma PrefixBehind<T>(a: seq<T>, b: seq<T>, c: seq<T>)
    requires b <= c
    ensures a + b <= a + c && |a + b| >= |a|
  {
  }

  /** The verdicts whose result is known at once. */
  predicate Concludes(v: Verdict) {
    v.RoleDenied? || v.PolicyDenied? || v.Rejected? || v.SpawnRefused? || v.Executed?
  }

  lemma ClosingIs(config: Config, call: ToolCall, answer: Answer, v: Verdict)
    requires Concludes(v)
    ensures Closing(config, call, answer, v) == [ToolFinished(call, config.redact(Text(call, answer, v)))]
  {
  }

  lemma ConcludedIsCarried(config: Config, opening: seq<Event>, text: string, runs: bool, s: Tools, call: ToolCall, answer: Answer,
                           round: nat, t: Tools, finished: seq<Event>)
    requires finished == Announced(config, call, text, answer.fault) && Outputs(opening + finished) == Outputs(finished)
    requires t == Tools(s.items + Outputs(finished),
                        if Interrupts(answer.fault) then s.executed else s.executed + {Signature(call)},
                        s.log + (if runs then [Execution(round, call)] else []))
    ensures Carried(opening, [ToolFinished(call, config.redact(text))], runs, false, s, call, answer, round,
                    if Interrupts(answer.fault) then Err(answer.fault.error) else Ok(false), t, opening + finished)
  {
    PrefixBehind(opening, finished, [ToolFinished(call, config.redact(text))]);
  }

  /** Runs the tool if it is to be run, then completes the call. `opening` has
      been sent. */
  method Conclude(config: Config, s: Tools, call: ToolCall, answer: Answer, round: nat, runs: bool, text: string, opening: seq<Event>)
    returns (r: Result<bool, string>, t: Tools, sent: seq<Event>)
    requires var v := Decide(config, s.executed, call, answer);
      && Concludes(v)
      && runs == (v == Executed) && text == Text(call, answer, v) && opening == Opening(call, answer, v)
    ensures Dispatched(config, s, call, answer, round, r, t, sent)
  {
    var log := s.log + (if runs then [Execution(round, call)] else []);
    var done, finished;
    done, t, finished := CompleteTool(config, s.(log := log), call, text, answer.fault);
    sent := opening + finished;
    ghost var v := Decide(config, s.executed, call, answer);
    OpeningHasNoOutputs(call, answer, v, finished);
    ConcludedIsCarried(config, opening, text, runs, s, call, answer, round, t, finished);
    ClosingIs(config, call, answer, v);
    r := if done.Err? then Err(done.error) else Ok(false);
  }

  method ConcludeTodo(config: Config, s: Tools, call: ToolCall, answer: Answer, round: nat)
    returns (r: Result<bool, string>, t: Tools, sent: seq<Event>)
    requires Decide(config, s.executed, call, answer) == Todo
    ensures Dispatched(config, s, call, answer, round, r, t, sent)
  {
    var done, after, finished := CompleteTool(config, s.(log := s.log + [Execution(round, call)]), call, answer.result, answer.fault);
    sent, t := [ToolStarted(call)] + finished, after;
    TodoSends(config, call, answer, finished);
    if done.Err? {
      return Err(done.error), t, sent;
    }
    sent := sent + (if answer.tasks.Some? then [TodoUpdated(answer.tasks.value)] else []);
    r := Ok(false);
  }

  /** The events of a todo call, with its result and without. */
  lemma TodoSends(config: Config, call: ToolCall, answer: Answer, finished: seq<Event>)
    requires finished == [] || finished == [ToolFinished(call, config.redact(answer.result))]
    ensures var all, sent := Opening(call, answer, Todo) + Closing(config, call, answer, Todo), [ToolStarted(call)] + finished;
      var more := sent + (if answer.tasks.Some? then [TodoUpdated(answer.tasks.value)] else []);
      && |Opening(call, answer, Todo)| == 1 && sent <= all && Outputs(sent) == Outputs(finished)
      && Outputs(more) == Outputs(finished) && (finished != [] ==> more == all)
  {
    OpeningHasNoOutputs(call, answer, Todo, finished);
    assert Opening(call, answer, Todo) == [ToolStarted(call)];
    NoUpdateIsOutput([ToolStarted(call)] + finished, answer.tasks);
    var updated := if answer.tasks.Some? then [TodoUpdated(answer.tasks.value)] else [];
    if finished != [] {
      assert Closing(config, call, answer, Todo) == finished + updated;
      Assoc([ToolStarted(call)], finished, updated);
    }
  }

  lemma NoUpdateIsOutput(sent: seq<Event>, tasks: Option<seq<TodoTask>>)
    ensures Outputs(sent + (if tasks.Some? then [TodoUpdated(tasks.value)] else [])) == Outputs(sent)
  {
    if tasks.Some? {
      OutputsSnoc(sent, TodoUpdated(tasks.value));
    } else {
      assert sent + [] == sent;
    }
  }

  /** The body of the dispatch loop. */
  method DispatchCall(config: Config, s: Tools, call: ToolCall, answer: Answer, round: nat)
    returns (r: Result<bool, string>, t: Tools, sent: seq<Event>)
    ensures Dispatched(config, s, call, answer, round, r, t, sent)
  {
    t, sent := s, [];
    if Signature(call) in s.executed {
      sent := [ToolFinished(call, DUPLICATE)];
      OutputsSnoc([], ToolFinished(call, DUPLICATE));
      t := s.(items := s.items + [ToolOutput(call.id, DUPLICATE)]);
      r := if answer.fault.AppendFails? then Err(answer.fault.error) else Ok(false);
      return;
    }
    if config.role.Some? && call.name !in config.role.value {
      if answer.fault.BeginFails? {
        return Err(answer.fault.error), t, sent;
      }
      r, t, sent := Conclude(config, s, call, answer, round, false, "denied by policy: child role does not allow " + call.name, []);
      return;
    }
    if call.name == "todo_read" || call.name == "todo_write" {
      if answer.fault.BeginFails? {
        return Err(answer.fault.error), t, sent;
      }
      r, t, sent := ConcludeTodo(config, s, call, answer, round);
      return;
    }
    r, t, sent := DispatchByPolicy(config, s, call, answer, round);
  }

  /** The policy, the approval, and what they allow. */
  method DispatchByPolicy(config: Config, s: Tools, call: ToolCall, answer: Answer, round: nat)
    returns (r: Result<bool, string>, t: Tools, sent: seq<Event>)
    requires Decide(config, s.executed, call, answer) !in {Duplicate, RoleDenied, Todo}
    ensures Dispatched(config, s, call, answer, round, r, t, sent)
  {
    t, sent := s, [];
    var approved;
    match answer.policy {
      case Allow =>
        approved := true;
      case Deny(reason) =>
        if answer.fault.BeginFails? {
          return Err(answer.fault.error), t, sent;
        }
        r, t, sent := Conclude(config, s, call, answer, round, false, "denied by policy: " + reason, []);
        return;
      case RequireApproval(reason) =>
        sent := [Approval(call, reason, None, None)];
        OpeningHasNoOutputs(call, answer, Decide(config, s.executed, call, answer), []);
        if answer.reply.None? {
          return Err("cancelled: approval channel closed"), t, sent;
        }
        approved := answer.reply.value;
    }
    r, t, sent := DispatchDecided(config, s, call, answer, round, approved, sent);
  }

  /** After the policy or the user has decided; `asked` has been sent. */
  method DispatchDecided(config: Config, s: Tools, call: ToolCall, answer: Answer, round: nat, approved: bool, asked: seq<Event>)
    returns (r: Result<bool, string>, t: Tools, sent: seq<Event>)
    requires var v := Decide(config, s.executed, call, answer);
      && v in {Rejected, SpawnRefused, Spawned, Executed}
      && approved == (v != Rejected) && asked == Asked(call, answer, v)
    ensures Dispatched(config, s, call, answer, round, r, t, sent)
  {
    OpeningHasNoOutputs(call, answer, Decide(config, s.executed, call, answer), []);
    t, sent := s, asked;
    if answer.fault.BeginFails? {
      return Err(answer.fault.error), t, sent;
    }
    if !approved {
      assert asked + [] == asked;
      r, t, sent := Conclude(config, s, call, answer, round, false, "rejected by user", asked);
      return;
    }
    r, t, sent := Start(config, s, call, answer, round, asked + [ToolStarted(call)]);
  }

  /** An approved call, announced by `opening`. */
  method Start(config: Config, s: Tools, call: ToolCall, answer: Answer, round: nat, opening: seq<Event>)
    returns (r: Result<bool, string>, t: Tools, sent: seq<Event>)
    requires var v := Decide(config, s.executed, call, answer);
      v in {SpawnRefused, Spawned, Executed} && opening == Opening(call, answer, v)
    ensures Dispatched(config, s, call, answer, round, r, t, sent)
  {
    if call.name != "agent_spawn" {
      r, t, sent := Conclude(config, s, call, answer, round, true, answer.result, opening);
    } else if config.depth >= 1 {
      r, t, sent := Conclude(config, s, call, answer, round, false, "child agents cannot recursively spawn another child", opening);
    } else {
      DeferralIsDispatched(config, s, call, answer, round);
      r, t, sent := Ok(true), s.(log := s.log + [Execution(round, call)]), opening;
    }
  }

  lemma DeferralIsDispatched(config: Config, s: Tools, call: ToolCall, answer: Answer, round: nat)
    requires Decide(config, s.executed, call, answer) == Spawned
    ensures Dispatched(config, s, call, answer, round, Ok(true), s.(log := s.log + [Execution(round, call)]), Opening(call, answer, Spawned))
  {
    var opening := Opening(call, answer, Spawned);
    OpeningHasNoOutputs(call, answer, Spawned, []);
    assert opening + [] == opening && s.items + [] == s.items;
    assert Closing(config, call, answer, Spawned) == [];
  }

  // ------------------------------------------------------------ no repetition

  /** Equal names and equal argument texts. */
  predicate SameCall(a: ToolCall, b: ToolCall) {
    a.name == b.name && Signature(a) == Signature(b)
  }

  /** Only child agents run twice for the same call, and only in one round. */
  ghost predicate NoRepeat(log: seq<Execution>) {
    forall a, b :: 0 <= a < b < |log| && SameCall(log[a].call, log[b].call) ==>
      log[b].call.name == "agent_spawn" && log[a].round == log[b].round
  }

  /** What was run is remembered, except children of this round still running. */
  ghost predicate Remembered(log: seq<Execution>, executed: set<string>, running: seq<ToolCall>, round: nat) {
    forall a :: 0 <= a < |log| ==>
      log[a].round <= round && (Signature(log[a].call) in executed
        || (log[a].round == round && log[a].call.name == "agent_spawn" && log[a].call in running))
  }

  /** What was run, told from the events sent: every started call, except a
      child agent that another child asked for. */
  function Ran(config: Config, round: nat, sent: seq<Event>): seq<Execution> {
    if sent == [] then []
    else
      var last := sent[|sent| - 1];
      Ran(config, round, sent[..|sent| - 1])
      + (if last.ToolStarted? && !(last.call.name == "agent_spawn" && config.depth >= 1) then [Execution(round, last.call)] else [])
  }

  lemma {:induction false} RanConcat(config: Config, round: nat, a: seq<Event>, b: seq<Event>)
    ensures Ran(config, round, a + b) == Ran(config, round, a) + Ran(config, round, b)
    decreases |b|
  {
    if b == [] {
      assert a + b == a;
    } else {
      RanConcat(config, round, a, b[..|b| - 1]);
      assert (a + b)[..|a + b| - 1] == a + b[..|b| - 1];
    }
  }

  lemma {:induction false} NothingRan(config: Config, round: nat, sent: seq<Event>)
    requires forall k :: 0 <= k < |sent| ==> !sent[k].ToolStarted?
    ensures Ran(config, round, sent) == []
  {
    if sent != [] {
      NothingRan(config, round, sent[..|sent| - 1]);
    }
  }

  lemma RanOne(config: Config, round: nat, e: Event)
    ensures Ran(config, round, [e]) ==
      if e.ToolStarted? && !(e.call.name == "agent_spawn" && config.depth >= 1) then [Execution(round, e.call)] else []
  {
    assert [e][..0] == [];
  }

  /** A child agent that another child asks for is announced, yet not run. */
  lemma DecideMeans(config: Config, executed: set<string>, call: ToolCall, answer: Answer)
    ensures var v := Decide(config, executed, call, answer);
      && (v.SpawnRefused? ==> call.name == "agent_spawn" && config.depth >= 1)
      && (Runs(v) ==> !(call.name == "agent_spawn" && config.depth >= 1))
  {
  }

  lemma OpeningRan(config: Config, call: ToolCall, answer: Answer, round: nat, v: Verdict)
    requires v.SpawnRefused? ==> call.name == "agent_spawn" && config.depth >= 1
    requires Runs(v) ==> !(call.name == "agent_spawn" && config.depth >= 1)
    ensures Ran(config, round, Opening(call, answer, v)) == if Runs(v) then [Execution(round, call)] else []
  {
    var started := if Starts(v) then [ToolStarted(call)] else [];
    RanConcat(config, round, Asked(call, answer, v), started);
    NothingRan(config, round, Asked(call, answer, v));
    RanOne(config, round, ToolStarted(call));
  }

  lemma ClosingStartsNothing(config: Config, call: ToolCall, answer: Answer, v: Verdict, round: nat, rest: seq<Event>)
    requires rest <= Closing(config, call, answer, v)
    ensures Ran(config, round, rest) == []
  {
    NothingRan(config, round, rest);
  }

  lemma PartOfOpeningStartsNothing(config: Config, call: ToolCall, answer: Answer, v: Verdict, round: nat, part: seq<Event>)
    requires part <= Opening(call, answer, v) && |part| < |Opening(call, answer, v)|
    ensures Ran(config, round, part) == []
  {
    assert part <= Asked(call, answer, v);
    NothingRan(config, round, part);
  }

  /** The log of one handled call is what its events say. */
  lemma DispatchedRan(config: Config, s: Tools, call: ToolCall, answer: Answer, round: nat, r: Result<bool, string>, t: Tools, sent: seq<Event>)
    requires Dispatched(config, s, call, answer, round, r, t, sent)
    ensures t.log == s.log + Ran(config, round, sent)
  {
    PrefixRan(config, s.executed, call, answer, round, sent);
  }

  lemma PrefixRan(config: Config, executed: set<string>, call: ToolCall, answer: Answer, round: nat, sent: seq<Event>)
    requires var v := Decide(config, executed, call, answer);
      sent <= Opening(call, answer, v) + Closing(config, call, answer, v)
    ensures var v := Decide(config, executed, call, answer);
      Ran(config, round, sent) == if Runs(v) && |sent| >= |Opening(call, answer, v)| then [Execution(round, call)] else []
  {
    var v := Decide(config, executed, call, answer);
    var opening, closing := Opening(call, answer, v), Closing(config, call, answer, v);
    if |sent| >= |opening| {
      PrefixSplits(opening, closing, sent);
      DecideMeans(config, executed, call, answer);
      OpeningRan(config, call, answer, round, v);
      ClosingStartsNothing(config, call, answer, v, round, sent[|opening|..]);
      RanConcat(config, round, opening, sent[|opening|..]);
    } else {
      ShortPrefix(sent, opening, closing);
      PartOfOpeningStartsNothing(config, call, answer, v, round, sent);
    }
  }

  lemma ShortPrefix<T>(c: seq<T>, a: seq<T>, b: seq<T>)
    requires c <= a + b && |c| <= |a|
    ensures c <= a
  {
  }

  lemma PrefixSplits<T>(a: seq<T>, b: seq<T>, c: seq<T>)
    requires c <= a + b && |c| >= |a|
    ensures c == a + c[|a|..] && c[|a|..] <= b
  {
  }

  lemma RunOnce(log: seq<Execution>, executed: set<string>, running: seq<ToolCall>, round: nat, call: ToolCall)
    requires NoRepeat(log) && Remembered(log, executed, running, round) && Signature(call) !in executed
    ensures NoRepeat(log + [Execution(round, call)])
    ensures Remembered(log + [Execution(round, call)], executed + {Signature(call)}, running, round)
    ensures call.name == "agent_spawn" ==> Remembered(log + [Execution(round, call)], executed, running + [call], round)
  {
  }
}
