/** What child agents run and what they report in the end
    (`src/agent/child.rs`). */
module ChildReports {
  import opened Wrappers
  import opened ChildAgents

  /** The last step that moved the child. */
  function LastMove(steps: seq<Step>, i: nat): Option<Step> {
    if steps == [] then None
    else
      var before, last := steps[..|steps| - 1], steps[|steps| - 1];
      if Moves(last) && last.child == i then Some(last) else LastMove(before, i)
  }

  predicate Moves(step: Step) {
    step.Queue? || step.Acquire? || step.Want? || step.Lock? || step.Ask? || step.Answer? || step.DropReply?
    || step.ToolDone? || step.End? || step.Fail? || step.Report? || step.Cancel?
  }

  lemma {:induction false} ApprovedWasAllowed(steps: seq<Step>, limits: Limits, i: nat)
    requires Run(steps, limits).Some? && In(Run(steps, limits).value, i, Approved)
    ensures LastMove(steps, i) == Some(Answer(i, true))
    decreases |steps|
  {
    var before, last := steps[..|steps| - 1], steps[|steps| - 1];
    if !(Moves(last) && last.child == i) {
      OthersStay(Run(before, limits).value, last, limits, i);
      ApprovedWasAllowed(before, limits, i);
    }
  }

  lemma OthersStay(s: State, step: Step, limits: Limits, i: nat)
    requires Enabled(s, step, limits) && !(Moves(step) && step.child == i)
    ensures i < |s.phases| ==> i < |Apply(s, step, limits).phases| && Apply(s, step, limits).phases[i] == s.phases[i]
    ensures i >= |s.phases| && i < |Apply(s, step, limits).phases| ==> Apply(s, step, limits).phases[i] == Announcing
  {
  }

  /** A tool that needs approval is run only if the last thing that happened to
      its child was that the user approved the call; after a rejection it is not. */
  lemma OnlyApprovedRuns(steps: seq<Step>, limits: Limits, i: nat, inBudget: bool)
    requires Run(steps + [ToolDone(i, inBudget)], limits).Some?
    ensures LastMove(steps, i) == Some(Answer(i, true))
  {
    assert (steps + [ToolDone(i, inBudget)])[..|steps|] == steps;
    ApprovedWasAllowed(steps, limits, i);
  }

  function Ended(step: Step, i: nat, before: Option<Status>): Option<Status> {
    match step
    case End(j, status) => if j == i then Some(status) else before
    case ToolDone(j, inBudget) => if j == i && !inBudget then Some(TimedOut) else before
    case Fail(j) => if j == i then Some(Failed) else before
    case Cancel(j) => if j == i then Some(Cancelled) else before
    case _ => before
  }

  /** What the child ended with: the last of its endings. */
  function EndedWith(steps: seq<Step>, i: nat): Option<Status> {
    if steps == [] then None else Ended(steps[|steps| - 1], i, EndedWith(steps[..|steps| - 1], i))
  }

  predicate Says(messages: seq<Message>, i: nat, status: Option<Status>) {
    forall k :: 0 <= k < |messages| && messages[k].Terminal? && messages[k].child == i ==> status == Some(messages[k].status)
  }

  /** What the child is about to report is what it ended with. */
  ghost predicate PhaseIsTrue(s: State, i: nat, status: Option<Status>) {
    && (i < |s.phases| && s.phases[i].Reporting? ==> status == Some(s.phases[i].status))
    && (i < |s.phases| && s.phases[i].ReportingFailure? ==> status == Some(Failed))
  }

  /** So are the messages it has sent, or a detached task will send. */
  ghost predicate MessagesAreTrue(s: State, i: nat, status: Option<Status>) {
    && Says(s.received, i, status) && Says(s.queue, i, status)
    && (forall k :: 0 <= k < |s.detached| && s.detached[k] == i ==> status == Some(Cancelled))
  }

  ghost predicate Truthful(s: State, i: nat, status: Option<Status>) {
    PhaseIsTrue(s, i, status) && MessagesAreTrue(s, i, status)
  }

  /** No report of the child is under way: nothing it has sent, nothing detached. */
  ghost predicate Silent(s: State, i: nat) {
    && Says(s.received, i, None) && Says(s.queue, i, None)
    && forall k :: 0 <= k < |s.detached| ==> s.detached[k] != i
  }

  ghost predicate SilentUntilOver(s: State, i: nat) {
    i >= |s.phases| || !s.phases[i].Over? ==> Silent(s, i)
  }

  lemma SaysMore(messages: seq<Message>, m: Message, i: nat, status: Option<Status>)
    requires Says(messages, i, status) && (m.Terminal? && m.child == i ==> status == Some(m.status))
    ensures Says(messages + [m], i, status)
  {
  }

  lemma SaysNothing(messages: seq<Message>, i: nat, status: Option<Status>)
    requires Says(messages, i, None)
    ensures Says(messages, i, status)
  {
  }

  lemma SilentStep(s: State, step: Step, limits: Limits, i: nat)
    requires Enabled(s, step, limits) && SilentUntilOver(s, i)
    ensures SilentUntilOver(Apply(s, step, limits), i)
  {
    match step
    case Note(j) => SaysLess(s.queue, Progress(j), i);
    case Ask(j) => SaysLess(s.queue, Prompt(j), i);
    case Report(j) => SaysLess(s.queue, Terminal(j, if s.phases[j].Reporting? then s.phases[j].status else Failed), i);
    case Cancel(j) => SaysLess(s.queue, Terminal(j, Cancelled), i);
    case SendDetached(k) => SaysLess(s.queue, Terminal(s.detached[k], Cancelled), i);
    case Receive => SaysLess(s.received, s.queue[0], i);
    case _ =>
  }

  lemma SaysLess(messages: seq<Message>, m: Message, i: nat)
    ensures Says(messages, i, None) && !(m.Terminal? && m.child == i) ==> Says(messages + [m], i, None)
  {
  }

  lemma PhaseStep(s: State, step: Step, limits: Limits, i: nat, status: Option<Status>)
    requires Enabled(s, step, limits) && PhaseIsTrue(s, i, status)
    ensures PhaseIsTrue(Apply(s, step, limits), i, Ended(step, i, status))
  {
  }

  predicate Ends(step: Step) {
    step.ToolDone? || step.End? || step.Fail? || step.Cancel?
  }

  /** A child that is not over has said nothing, so it may end with anything. */
  lemma EndsSilently(s: State, step: Step, limits: Limits, i: nat, status: Option<Status>)
    requires Enabled(s, step, limits) && SilentUntilOver(s, i) && MessagesAreTrue(s, i, status) && Ends(step)
    ensures MessagesAreTrue(s, i, Ended(step, i, status))
  {
    if step.child == i {
      SaysNothing(s.received, i, Ended(step, i, status));
      SaysNothing(s.queue, i, Ended(step, i, status));
    }
  }

  lemma MessagesStep(s: State, step: Step, limits: Limits, i: nat, status: Option<Status>)
    requires Enabled(s, step, limits) && MessagesAreTrue(s, i, status)
    requires step.Report? ==> PhaseIsTrue(s, i, status)
    requires step.Cancel? && step.child == i ==> status == Some(Cancelled)
    ensures MessagesAreTrue(Apply(s, step, limits), i, status)
  {
    match step
    case Note(j) => SaysMore(s.queue, Progress(j), i, status);
    case Ask(j) => SaysMore(s.queue, Prompt(j), i, status);
    case Report(j) => SaysMore(s.queue, Terminal(j, if s.phases[j].Reporting? then s.phases[j].status else Failed), i, status);
    case Cancel(j) => SaysMore(s.queue, Terminal(j, Cancelled), i, status);
    case SendDetached(k) => SaysMore(s.queue, Terminal(s.detached[k], Cancelled), i, status);
    case Receive => SaysMore(s.received, s.queue[0], i, status);
    case _ =>
  }

  lemma TruthfulStep(s: State, step: Step, limits: Limits, i: nat, status: Option<Status>)
    requires Enabled(s, step, limits) && SilentUntilOver(s, i) && Truthful(s, i, status)
    ensures Truthful(Apply(s, step, limits), i, Ended(step, i, status))
  {
    PhaseStep(s, step, limits, i, status);
    if Ends(step) {
      EndsSilently(s, step, limits, i, status);
    }
    MessagesStep(s, step, limits, i, Ended(step, i, status));
  }

  lemma {:induction false} EveryRunIsTruthful(steps: seq<Step>, limits: Limits, i: nat)
    requires Run(steps, limits).Some?
    ensures SilentUntilOver(Run(steps, limits).value, i) && Truthful(Run(steps, limits).value, i, EndedWith(steps, i))
    decreases |steps|
  {
    if steps != [] {
      var before, last := steps[..|steps| - 1], steps[|steps| - 1];
      EveryRunIsTruthful(before, limits, i);
      SilentStep(Run(before, limits).value, last, limits, i);
      TruthfulStep(Run(before, limits).value, last, limits, i, EndedWith(before, i));
    }
  }

  /** The status that a child reports is the one it ended with. */
  lemma ReportIsTrue(steps: seq<Step>, limits: Limits, k: nat)
    requires Run(steps, limits).Some?
    ensures var messages := Run(steps, limits).value.received + Run(steps, limits).value.queue;
      k < |messages| && messages[k].Terminal? ==> EndedWith(steps, messages[k].child) == Some(messages[k].status)
  {
    var s := Run(steps, limits).value;
    var messages := s.received + s.queue;
    if k < |messages| && messages[k].Terminal? {
      EveryRunIsTruthful(steps, limits, messages[k].child);
      assert messages[k] == if k < |s.received| then s.received[k] else s.queue[k - |s.received|];
    }
  }

  // ------------------------------------------------------- the order of messages

  /** What a step puts into the channel while it is open. */
  function Puts(s: State, step: Step, limits: Limits): seq<Message> {
    match step
    case Note(i) => [Progress(i)]
    case Ask(i) => [Prompt(i)]
    case Report(i) => if i < |s.phases| && s.phases[i].Reporting? then [Terminal(i, s.phases[i].status)] else [Terminal(i, Failed)]
    case Cancel(i) => if |s.queue| < limits.capacity then [Terminal(i, Cancelled)] else []
    case SendDetached(k) => if k < |s.detached| then [Terminal(s.detached[k], Cancelled)] else []
    case _ => []
  }

  /** All that was put there, in order. */
  function AllPut(steps: seq<Step>, limits: Limits): seq<Message> {
    if steps == [] then []
    else
      var before, last := steps[..|steps| - 1], steps[|steps| - 1];
      AllPut(before, limits) + (if Run(before, limits).Some? then Puts(Run(before, limits).value, last, limits) else [])
  }

  lemma PutStep(s: State, step: Step, limits: Limits)
    requires Enabled(s, step, limits) && s.open && !step.Close?
    ensures var t := Apply(s, step, limits);
      t.open && t.received + t.queue == s.received + s.queue + Puts(s, step, limits)
  {
    if step.Receive? {
      assert s.queue == [s.queue[0]] + s.queue[1..];
    }
  }

  /** While the channel stays open, the user receives all messages in the order in
      which they were sent, and none is lost. */
  lemma {:induction false} MessagesStayInOrder(steps: seq<Step>, limits: Limits)
    requires Run(steps, limits).Some? && Run(steps, limits).value.open
    ensures Run(steps, limits).value.received + Run(steps, limits).value.queue == AllPut(steps, limits)
    decreases |steps|
  {
    if steps != [] {
      var before, last := steps[..|steps| - 1], steps[|steps| - 1];
      StaysClosed(Run(before, limits).value, last, limits);
      MessagesStayInOrder(before, limits);
      PutStep(Run(before, limits).value, last, limits);
    }
  }

  lemma StaysClosed(s: State, step: Step, limits: Limits)
    requires Enabled(s, step, limits)
    ensures Apply(s, step, limits).open ==> s.open && !step.Close?
  {
  }
}
