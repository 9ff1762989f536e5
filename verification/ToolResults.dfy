/** What the results of tool calls say, told from the answers of the world. */
module ToolResults {
  import opened Wrappers
  import opened Protocol
  import opened Conversation
  import opened ToolBlocks
  import opened ToolDispatch

  predicate IsTodo(call: ToolCall) {
    call.name == "todo_read" || call.name == "todo_write"
  }

  /** The user allowed it, if the policy left it to the user. */
  predicate Permits(answer: Answer) {
    answer.policy.Allow? || (answer.policy.RequireApproval? && answer.reply.Some? && answer.reply.value)
  }

  predicate RoleAllows(config: Config, call: ToolCall) {
    config.role.Some? ==> call.name in config.role.value
  }

  /** It was not run before, its role may use the tool, and, the todo list
      aside, the policy or the user allowed it; a child agent starts none itself. */
  predicate MayRun(config: Config, executed: set<string>, call: ToolCall, answer: Answer) {
    && Signature(call) !in executed && RoleAllows(config, call)
    && (IsTodo(call) || (Permits(answer) && (call.name == "agent_spawn" ==> config.depth == 0)))
  }

  predicate MaySpawn(config: Config, call: ToolCall, answer: Answer) {
    call.name == "agent_spawn" && RoleAllows(config, call) && Permits(answer) && config.depth == 0
  }

  /** The result of a call that is finished at once: what the tool gave, or why
      it was not run. */
  predicate Says(config: Config, executed: set<string>, call: ToolCall, answer: Answer, result: string) {
    if Signature(call) in executed then
      result == "Duplicate tool call was not executed. Reuse the previous result or choose a different action."
    else if !RoleAllows(config, call) then
      result == config.redact("denied by policy: child role does not allow " + call.name)
    else if IsTodo(call) then result == config.redact(answer.result)
    else if answer.policy.Deny? then result == config.redact("denied by policy: " + answer.policy.reason)
    else if !Permits(answer) then answer.reply == Some(false) && result == config.redact("rejected by user")
    else if call.name == "agent_spawn" then
      config.depth >= 1 && result == config.redact("child agents cannot recursively spawn another child")
    else result == config.redact(answer.result)
  }

  /** The signatures of the calls whose results were announced. */
  function Known(sent: seq<Event>): set<string> {
    if sent == [] then {}
    else
      var last := sent[|sent| - 1];
      Known(sent[..|sent| - 1]) + (if last.ToolFinished? then {Signature(last.call)} else {})
  }

  lemma KnownSnoc(sent: seq<Event>, e: Event)
    ensures Known(sent + [e]) == Known(sent) + (if e.ToolFinished? then {Signature(e.call)} else {})
  {
    assert (sent + [e])[..|sent|] == sent;
  }

  lemma {:induction false} KnownConcat(a: seq<Event>, b: seq<Event>)
    ensures Known(a + b) == Known(a) + Known(b)
    decreases |b|
  {
    if b == [] {
      assert a + b == a;
    } else {
      var n := |b| - 1;
      KnownConcat(a, b[..n]);
      KnownSnoc(a + b[..n], b[n]);
      assert a + b[..n] + [b[n]] == a + b;
    }
  }

  lemma {:induction false} NothingKnown(sent: seq<Event>)
    requires forall k :: 0 <= k < |sent| ==> !sent[k].ToolFinished?
    ensures Known(sent) == {}
  {
    if sent != [] {
      NothingKnown(sent[..|sent| - 1]);
    }
  }

  // ---------------------------------------------------------------- one call

  lemma OpeningFinishesNothing(call: ToolCall, answer: Answer, v: Verdict)
    ensures forall k :: 0 <= k < |Opening(call, answer, v)| ==> !Opening(call, answer, v)[k].ToolFinished?
  {
  }

  /** The result comes first, and nothing else of the kind. */
  lemma ClosingSays(config: Config, executed: set<string>, call: ToolCall, answer: Answer, v: Verdict)
    requires v == Decide(config, executed, call, answer)
    ensures var closing := Closing(config, call, answer, v);
      && (closing == [] <==> v == Spawned || v == Unanswered)
      && (closing != [] ==> closing[0].ToolFinished? && closing[0].call == call)
      && (closing != [] ==> Says(config, executed, call, answer, closing[0].result))
      && (forall k :: 0 < k < |closing| ==> !closing[k].ToolFinished?)
  {
  }

  /** An announced result of the call, and it is the first one. */
  ghost predicate TellsOf(config: Config, executed: set<string>, call: ToolCall, answer: Answer, sent: seq<Event>, k: nat)
    requires k < |sent|
  {
    sent[k].ToolFinished? ==>
      sent[k].call == call && Known(sent[..k]) == {} && Says(config, executed, call, answer, sent[k].result)
  }

  lemma PartTells(config: Config, executed: set<string>, call: ToolCall, answer: Answer, opening: seq<Event>, closing: seq<Event>,
                  sent: seq<Event>, k: nat)
    requires sent <= opening + closing && k < |sent|
    requires forall i :: 0 <= i < |opening| ==> !opening[i].ToolFinished?
    requires forall i :: 0 < i < |closing| ==> !closing[i].ToolFinished?
    requires closing != [] ==> closing[0].ToolFinished? && closing[0].call == call && Says(config, executed, call, answer, closing[0].result)
    ensures TellsOf(config, executed, call, answer, sent, k)
  {
    var all := opening + closing;
    assert sent[k] == all[k];
    if sent[k].ToolFinished? {
      assert k == |opening|;
      assert sent[..k] == opening;
      NothingKnown(opening);
    }
  }

  lemma KnownByOne(e: Event, rest: seq<Event>)
    requires e.ToolFinished? && forall k :: 0 <= k < |rest| ==> !rest[k].ToolFinished?
    ensures Known([e] + rest) == {Signature(e.call)}
  {
    KnownConcat([e], rest);
    KnownSnoc([], e);
    assert [] + [e] == [e];
    NothingKnown(rest);
  }

  lemma AllKnown(call: ToolCall, opening: seq<Event>, closing: seq<Event>)
    requires forall i :: 0 <= i < |opening| ==> !opening[i].ToolFinished?
    requires forall i :: 0 < i < |closing| ==> !closing[i].ToolFinished?
    requires closing != [] ==> closing[0].ToolFinished? && closing[0].call == call
    ensures Known(opening + closing) == if closing == [] then {} else {Signature(call)}
  {
    NothingKnown(opening);
    KnownConcat(opening, closing);
    if closing != [] {
      KnownByOne(closing[0], closing[1..]);
      assert closing == [closing[0]] + closing[1..];
    }
  }

  lemma CarriedTells(config: Config, opening: seq<Event>, closing: seq<Event>, runs: bool, defers: bool, s: Tools, call: ToolCall,
                     answer: Answer, round: nat, r: Result<bool, string>, t: Tools, sent: seq<Event>)
    requires Carried(opening, closing, runs, defers, s, call, answer, round, r, t, sent)
    requires forall i :: 0 <= i < |opening| ==> !opening[i].ToolFinished?
    requires forall i :: 0 < i < |closing| ==> !closing[i].ToolFinished?
    requires closing != [] ==> closing[0].ToolFinished? && closing[0].call == call
    requires closing != [] ==> Says(config, s.executed, call, answer, closing[0].result)
    requires r.Ok? ==> (defers <==> closing == [])
    ensures forall k :: 0 <= k < |sent| ==> TellsOf(config, s.executed, call, answer, sent, k)
    ensures r.Ok? ==> t.executed == s.executed + Known(sent)
  {
    forall k | 0 <= k < |sent| ensures TellsOf(config, s.executed, call, answer, sent, k) {
      PartTells(config, s.executed, call, answer, opening, closing, sent, k);
    }
    AllKnown(call, opening, closing);
  }

  /** What a handled call announces, and what it remembers. */
  lemma DispatchTells(config: Config, s: Tools, call: ToolCall, answer: Answer, round: nat, r: Result<bool, string>, t: Tools, sent: seq<Event>)
    requires Dispatched(config, s, call, answer, round, r, t, sent)
    ensures forall k :: 0 <= k < |sent| ==> TellsOf(config, s.executed, call, answer, sent, k)
    ensures r.Ok? ==> t.executed == s.executed + Known(sent)
    ensures r.Ok? && r.value ==> MaySpawn(config, call, answer) && Signature(call) !in s.executed
  {
    var v := Decide(config, s.executed, call, answer);
    OpeningFinishesNothing(call, answer, v);
    ClosingSays(config, s.executed, call, answer, v);
    CarriedTells(config, Opening(call, answer, v), Closing(config, call, answer, v), Runs(v), v == Spawned,
                 s, call, answer, round, r, t, sent);
    SpawnedMay(config, s.executed, call, answer);
  }

  lemma SpawnedMay(config: Config, executed: set<string>, call: ToolCall, answer: Answer)
    ensures Decide(config, executed, call, answer) == Spawned <==>
      Signature(call) !in executed && !IsTodo(call) && MaySpawn(config, call, answer)
  {
  }

  lemma {:induction false} NoOutputs(sent: seq<Event>)
    requires forall k :: 0 <= k < |sent| ==> !sent[k].ToolFinished?
    ensures Outputs(sent) == []
  {
    if sent != [] {
      NoOutputs(sent[..|sent| - 1]);
    }
  }

  lemma OutputByOne(e: Event, rest: seq<Event>)
    requires e.ToolFinished? && forall k :: 0 <= k < |rest| ==> !rest[k].ToolFinished?
    ensures Outputs([e] + rest) == [ToolOutput(e.call.id, e.result)]
  {
    OutputsConcat([e], rest);
    OutputOfOne(e.call, e.result);
    NoOutputs(rest);
  }

  lemma ClosingPutsOut(call: ToolCall, closing: seq<Event>)
    requires closing != [] && closing[0].ToolFinished? && closing[0].call == call
    requires forall i :: 0 < i < |closing| ==> !closing[i].ToolFinished?
    ensures Outputs(closing) == [ToolOutput(call.id, closing[0].result)]
  {
    OutputByOne(closing[0], closing[1..]);
    assert closing == [closing[0]] + closing[1..];
  }

  /** What a handled call appends. */
  lemma Appends(config: Config, s: Tools, call: ToolCall, answer: Answer, round: nat, r: Result<bool, string>, t: Tools, sent: seq<Event>)
    requires Dispatched(config, s, call, answer, round, r, t, sent) && r.Ok?
    ensures var closing := Closing(config, call, answer, Decide(config, s.executed, call, answer));
      t.items == s.items + Outputs(closing) && (r.value <==> Decide(config, s.executed, call, answer) == Spawned)
  {
    var v := Decide(config, s.executed, call, answer);
    OpeningHasNoOutputs(call, answer, v, Closing(config, call, answer, v));
  }

  /** A call that is finished at once appends one output: what the tool gave, or
      why it was not run. A child agent that is started appends nothing yet. */
  lemma ResultIs(config: Config, s: Tools, call: ToolCall, answer: Answer, round: nat, r: Result<bool, string>, t: Tools, sent: seq<Event>)
    requires Dispatched(config, s, call, answer, round, r, t, sent) && r.Ok?
    ensures r.value <==> Signature(call) !in s.executed && MaySpawn(config, call, answer)
    ensures if r.value then t.items == s.items
      else exists result :: Says(config, s.executed, call, answer, result) && t.items == s.items + [ToolOutput(call.id, result)]
    ensures MayRun(config, s.executed, call, answer) && call.name != "agent_spawn" ==>
      t.items == s.items + [ToolOutput(call.id, config.redact(answer.result))]
  {
    var v := Decide(config, s.executed, call, answer);
    var closing := Closing(config, call, answer, v);
    Appends(config, s, call, answer, round, r, t, sent);
    ClosingSays(config, s.executed, call, answer, v);
    SpawnedMay(config, s.executed, call, answer);
    if closing != [] {
      ClosingPutsOut(call, closing);
      assert Says(config, s.executed, call, answer, closing[0].result);
    }
    RanSays(config, s.executed, call, answer);
  }

  lemma RanSays(config: Config, executed: set<string>, call: ToolCall, answer: Answer)
    ensures MayRun(config, executed, call, answer) && call.name != "agent_spawn" ==>
      forall result :: Says(config, executed, call, answer, result) ==> result == config.redact(answer.result)
  {
  }
}
