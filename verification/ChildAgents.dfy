/** Child agents as interleaved steps (`src/agent/child.rs`). A child can be
    cancelled at every await; a step here is what happens between two awaits.
    Children of one run are dropped together when its task is aborted, which is
    a `Cancel` of each in a row; the results hold for any order of cancellations.
    `WaitingSlot` to `Reporting` are the awaits of `run_child_inner` and
    `execute_child_tool`; the guard's drop is the `Cancel` step. */
module ChildAgents {
  import opened Wrappers

  datatype Status = Completed | Failed | TimedOut | TurnLimit | Cancelled

  datatype Phase =
    | Announcing
    | WaitingSlot
    | Working
    | WaitingLock
    | Asking
    | Asked
    | Approved
    | Reporting(status: Status)
    | ReportingFailure
    | Over

  datatype Message = Progress(child: nat) | Prompt(child: nat) | Terminal(child: nat, status: Status)

  /** All children created so far, the semaphore, the approval lock, the bounded
      event channel, and the detached tasks that still have to send a
      cancellation. `unanswered` are the prompts the user has not dealt with. */
  datatype State = State(
    phases: seq<Phase>, permits: nat, lock: Option<nat>,
    open: bool, queue: seq<Message>, received: seq<Message>, detached: seq<nat>, unanswered: set<nat>)

  datatype Limits = Limits(slots: nat, capacity: nat)

  function Start(limits: Limits): State {
    State([], limits.slots, None, true, [], [], [], {})
  }

  datatype Step =
    | Create
    | Queue(child: nat)
    | Note(child: nat)
    | Acquire(child: nat)
    | Want(child: nat)
    | Lock(child: nat)
    | Ask(child: nat)
    | Answer(child: nat, approved: bool)
    | DropReply(child: nat)
    | Dismiss(child: nat)
    | ToolDone(child: nat, inBudget: bool)
    | End(child: nat, status: Status)
    | Fail(child: nat)
    | Report(child: nat)
    | Cancel(child: nat)
    | SendDetached(index: nat)
    | Receive
    | Close

  predicate HoldsSlot(p: Phase) {
    p.Working? || p.WaitingLock? || p.Asking? || p.Asked? || p.Approved? || p.Reporting?
  }

  predicate HoldsLock(p: Phase) {
    p.Asking? || p.Asked? || p.Approved?
  }

  // -------------------------------------------------------------- transitions

  predicate HasRoom(s: State, limits: Limits) {
    !s.open || |s.queue| < limits.capacity
  }

  predicate In(s: State, i: nat, p: Phase) {
    i < |s.phases| && s.phases[i] == p
  }

  predicate Enabled(s: State, step: Step, limits: Limits) {
    match step
    case Create => true
    case Queue(i) => In(s, i, Announcing)
    case Note(i) => i < |s.phases| && !s.phases[i].Over? && HasRoom(s, limits)
    case Acquire(i) => In(s, i, WaitingSlot) && s.permits > 0
    case Want(i) => In(s, i, Working)
    case Lock(i) => In(s, i, WaitingLock) && s.lock.None?
    case Ask(i) => In(s, i, Asking) && HasRoom(s, limits)
    case Answer(i, _) => In(s, i, Asked)
    case DropReply(i) => In(s, i, Asked)
    case Dismiss(i) => i in s.unanswered && !In(s, i, Asked)
    case ToolDone(i, _) => In(s, i, Approved)
    case End(i, status) => In(s, i, Working) && !status.Cancelled?
    case Fail(i) => i < |s.phases| && (s.phases[i].Announcing? || s.phases[i].WaitingSlot? || s.phases[i].Working? || s.phases[i].Reporting?)
    case Report(i) => i < |s.phases| && (s.phases[i].Reporting? || s.phases[i].ReportingFailure?) && HasRoom(s, limits)
    case Cancel(i) => i < |s.phases| && !s.phases[i].Over?
    case SendDetached(k) => k < |s.detached| && HasRoom(s, limits)
    case Receive => s.queue != []
    case Close => true
  }

  /** A child moves to another phase; leaving the slot or the lock frees it. */
  function Move(s: State, i: nat, p: Phase): State
    requires i < |s.phases| && (HoldsSlot(p) && !HoldsSlot(s.phases[i]) ==> s.permits > 0)
  {
    var q := s.phases[i];
    s.(phases := s.phases[i := p],
      permits := if HoldsSlot(q) && !HoldsSlot(p) then s.permits + 1
        else if !HoldsSlot(q) && HoldsSlot(p) then s.permits - 1 else s.permits,
      lock := if HoldsLock(q) && !HoldsLock(p) then None else if HoldsLock(p) && !HoldsLock(q) then Some(i) else s.lock)
  }

  /** Sending on a closed channel does nothing. */
  function Send(s: State, m: Message): State {
    if s.open then s.(queue := s.queue + [m]) else s
  }

  function Apply(s: State, step: Step, limits: Limits): State
    requires Enabled(s, step, limits)
  {
    match step
    case Create => s.(phases := s.phases + [Announcing])
    case Queue(i) => Move(s, i, WaitingSlot)
    case Note(i) => Send(s, Progress(i))
    case Acquire(i) => Move(s, i, Working)
    case Want(i) => Move(s, i, WaitingLock)
    case Lock(i) => Move(s, i, Asking)
    case Ask(i) => if s.open then Send(Move(s, i, Asked), Prompt(i)).(unanswered := s.unanswered + {i}) else Move(s, i, Working)
    case Answer(i, approved) => Move(s, i, if approved then Approved else Working).(unanswered := s.unanswered - {i})
    case DropReply(i) => Move(s, i, Working).(unanswered := s.unanswered - {i})
    case Dismiss(i) => s.(unanswered := s.unanswered - {i})
    case ToolDone(i, inBudget) => Move(s, i, if inBudget then Working else Reporting(TimedOut))
    case End(i, status) => Move(s, i, Reporting(status))
    case Fail(i) => Move(s, i, ReportingFailure)
    case Report(i) => Send(Move(s, i, Over), Terminal(i, if s.phases[i].Reporting? then s.phases[i].status else Failed))
    case Cancel(i) =>
      if s.open && |s.queue| >= limits.capacity then Move(s, i, Over).(detached := s.detached + [i])
      else Send(Move(s, i, Over), Terminal(i, Cancelled))
    case SendDetached(k) => Send(s, Terminal(s.detached[k], Cancelled)).(detached := s.detached[..k] + s.detached[k + 1..])
    case Receive => s.(queue := s.queue[1..], received := s.received + [s.queue[0]])
    case Close => s.(open := false, queue := [])
  }

  // ---------------------------------------------------------------- invariant

  function Holders(phases: seq<Phase>): nat {
    if phases == [] then 0 else (if HoldsSlot(phases[0]) then 1 else 0) + Holders(phases[1..])
  }

  function Terminals(messages: seq<Message>, i: nat): nat {
    if messages == [] then 0
    else (if messages[0].Terminal? && messages[0].child == i then 1 else 0) + Terminals(messages[1..], i)
  }

  function Detached(children: seq<nat>, i: nat): nat {
    if children == [] then 0 else (if children[0] == i then 1 else 0) + Detached(children[1..], i)
  }

  ghost predicate Slots(s: State, limits: Limits) {
    s.permits + Holders(s.phases) == limits.slots
  }

  ghost predicate Locked(s: State) {
    && (forall i :: 0 <= i < |s.phases| && HoldsLock(s.phases[i]) ==> s.lock == Some(i))
    && (s.lock.Some? ==> s.lock.value < |s.phases| && HoldsLock(s.phases[s.lock.value]))
  }

  /** A child that waits for an answer has its prompt before the user; the
      other prompts there are those of children that are over. */
  ghost predicate Prompted(s: State) {
    && (forall i :: 0 <= i < |s.phases| && s.phases[i].Asked? ==> i in s.unanswered)
    && (forall i :: i in s.unanswered ==> i < |s.phases| && (s.phases[i].Asked? || s.phases[i].Over?))
  }

  /** Reported once exactly if over, counting what is still to be sent. */
  predicate ReportedOnce(s: State, i: nat) {
    Terminals(s.received, i) + Terminals(s.queue, i) + Detached(s.detached, i)
      == if i < |s.phases| && s.phases[i].Over? then 1 else 0
  }

  ghost predicate Reported(s: State) {
    forall i: nat :: ReportedOnce(s, i)
  }

  ghost predicate Inv(s: State, limits: Limits) {
    Slots(s, limits) && Locked(s) && Prompted(s) && (s.open ==> Reported(s) && |s.queue| <= limits.capacity)
  }

  // ------------------------------------------------------------------- lemmas

  lemma {:induction false} HoldersUpdate(phases: seq<Phase>, i: nat, p: Phase)
    requires i < |phases|
    ensures Holders(phases[i := p]) + (if HoldsSlot(phases[i]) then 1 else 0) == Holders(phases) + (if HoldsSlot(p) then 1 else 0)
  {
    if i == 0 {
      assert phases[i := p][1..] == phases[1..];
    } else {
      assert phases[i := p][1..] == phases[1..][i - 1 := p];
      HoldersUpdate(phases[1..], i - 1, p);
    }
  }

  lemma {:induction false} HoldersAppend(phases: seq<Phase>, p: Phase)
    ensures Holders(phases + [p]) == Holders(phases) + (if HoldsSlot(p) then 1 else 0)
  {
    if phases == [] {
      assert phases + [p] == [p] && [p][1..] == [];
    } else {
      assert (phases + [p])[1..] == phases[1..] + [p];
      HoldersAppend(phases[1..], p);
    }
  }

  lemma {:induction false} TerminalsConcat(a: seq<Message>, b: seq<Message>, i: nat)
    ensures Terminals(a + b, i) == Terminals(a, i) + Terminals(b, i)
  {
    if a == [] {
      assert a + b == b;
    } else {
      assert (a + b)[1..] == a[1..] + b;
      TerminalsConcat(a[1..], b, i);
    }
  }

  lemma {:induction false} DetachedConcat(a: seq<nat>, b: seq<nat>, i: nat)
    ensures Detached(a + b, i) == Detached(a, i) + Detached(b, i)
  {
    if a == [] {
      assert a + b == b;
    } else {
      assert (a + b)[1..] == a[1..] + b;
      DetachedConcat(a[1..], b, i);
    }
  }

  /** Moving a child keeps the slots and the lock accounted for. */
  lemma MoveKeeps(s: State, i: nat, p: Phase, limits: Limits)
    requires Slots(s, limits) && Locked(s) && i < |s.phases|
    requires HoldsSlot(p) && !HoldsSlot(s.phases[i]) ==> s.permits > 0
    requires HoldsLock(p) && !HoldsLock(s.phases[i]) ==> s.lock.None?
    ensures Slots(Move(s, i, p), limits) && Locked(Move(s, i, p))
  {
    HoldersUpdate(s.phases, i, p);
  }

  /** The child a step moves, and where to. */
  function Target(s: State, step: Step): Option<Phase> {
    match step
    case Queue(_) => Some(WaitingSlot)
    case Acquire(_) => Some(Working)
    case Want(_) => Some(WaitingLock)
    case Lock(_) => Some(Asking)
    case Ask(_) => Some(if s.open then Asked else Working)
    case Answer(_, approved) => Some(if approved then Approved else Working)
    case DropReply(_) => Some(Working)
    case ToolDone(_, inBudget) => Some(if inBudget then Working else Reporting(TimedOut))
    case End(_, status) => Some(Reporting(status))
    case Fail(_) => Some(ReportingFailure)
    case Report(_) => Some(Over)
    case Cancel(_) => Some(Over)
    case _ => None
  }

  lemma StepMoves(s: State, step: Step, limits: Limits)
    requires Enabled(s, step, limits) && Slots(s, limits) && Locked(s)
    ensures Slots(Apply(s, step, limits), limits) && Locked(Apply(s, step, limits))
  {
    if step.Create? {
      HoldersAppend(s.phases, Announcing);
    } else if Target(s, step).Some? {
      MoveKeeps(s, step.child, Target(s, step).value, limits);
    }
  }

  lemma StepPrompts(s: State, step: Step, limits: Limits)
    requires Enabled(s, step, limits) && Prompted(s)
    ensures Prompted(Apply(s, step, limits))
  {
  }

  lemma SentIs(messages: seq<Message>, m: Message, i: nat)
    ensures Terminals(messages + [m], i) == Terminals(messages, i) + (if m.Terminal? && m.child == i then 1 else 0)
  {
    TerminalsConcat(messages, [m], i);
    assert [m][1..] == [];
  }

  /** A child that is over sends its last report, at once or detached. */
  lemma OverReports(s: State, j: nat, status: Status, detach: bool, i: nat)
    requires s.open && j < |s.phases| && !s.phases[j].Over? && ReportedOnce(s, i)
    ensures var moved := Move(s, j, Over);
      ReportedOnce(if detach then moved.(detached := s.detached + [j]) else Send(moved, Terminal(j, status)), i)
  {
    SentIs(s.queue, Terminal(j, status), i);
    DetachedConcat(s.detached, [j], i);
    assert [j][1..] == [];
  }

  lemma StepReports(s: State, step: Step, limits: Limits, i: nat)
    requires Enabled(s, step, limits) && s.open && ReportedOnce(s, i) && !step.Close?
    ensures ReportedOnce(Apply(s, step, limits), i)
  {
    match step {
      case Note(j) => SentIs(s.queue, Progress(j), i);
      case Ask(j) => SentIs(s.queue, Prompt(j), i);
      case Report(j) => OverReports(s, j, if s.phases[j].Reporting? then s.phases[j].status else Failed, false, i);
      case Cancel(j) => OverReports(s, j, Cancelled, |s.queue| >= limits.capacity, i);
      case SendDetached(k) =>
        SentIs(s.queue, Terminal(s.detached[k], Cancelled), i);
        DetachedWithout(s.detached, k, i);
      case Receive =>
        SentIs(s.received, s.queue[0], i);
      case _ =>
    }
  }

  lemma DetachedWithout(children: seq<nat>, k: nat, i: nat)
    requires k < |children|
    ensures Detached(children, i) == Detached(children[..k] + children[k + 1..], i) + (if children[k] == i then 1 else 0)
  {
    assert children == children[..k] + [children[k]] + children[k + 1..];
    DetachedConcat(children[..k] + [children[k]], children[k + 1..], i);
    DetachedConcat(children[..k], [children[k]], i);
    DetachedConcat(children[..k], children[k + 1..], i);
    assert [children[k]][1..] == [];
  }

  lemma StepKeeps(s: State, step: Step, limits: Limits)
    requires Inv(s, limits) && Enabled(s, step, limits)
    ensures Inv(Apply(s, step, limits), limits)
  {
    StepMoves(s, step, limits);
    StepPrompts(s, step, limits);
    if s.open && !step.Close? {
      forall i: nat ensures ReportedOnce(Apply(s, step, limits), i) {
        StepReports(s, step, limits, i);
      }
    }
  }

  /** Where an interleaving leads; `None` if one of its steps cannot happen. */
  function Run(steps: seq<Step>, limits: Limits): Option<State> {
    if steps == [] then Some(Start(limits))
    else
      var before, last := Run(steps[..|steps| - 1], limits), steps[|steps| - 1];
      if before.Some? && Enabled(before.value, last, limits) then Some(Apply(before.value, last, limits)) else None
  }

  lemma {:induction false} EveryRunKeeps(steps: seq<Step>, limits: Limits)
    requires Run(steps, limits).Some?
    ensures Inv(Run(steps, limits).value, limits)
    decreases |steps|
  {
    if steps != [] {
      EveryRunKeeps(steps[..|steps| - 1], limits);
      StepKeeps(Run(steps[..|steps| - 1], limits).value, steps[|steps| - 1], limits);
    }
  }

  lemma {:induction false} NoneHolds(phases: seq<Phase>)
    requires forall i :: 0 <= i < |phases| ==> phases[i].Over?
    ensures Holders(phases) == 0
  {
    if phases != [] {
      NoneHolds(phases[1..]);
    }
  }

  lemma AllBack(s: State, limits: Limits)
    requires Slots(s, limits) && Locked(s)
    ensures (forall i :: 0 <= i < |s.phases| ==> s.phases[i].Over?) ==> s.permits == limits.slots && s.lock.None?
  {
    if forall i :: 0 <= i < |s.phases| ==> s.phases[i].Over? {
      NoneHolds(s.phases);
    }
  }

  /** In every interleaving at most `slots` children hold a slot, and every slot
      comes back, whatever ended the children. */
  lemma SlotsAreConserved(steps: seq<Step>, limits: Limits)
    requires Run(steps, limits).Some?
    ensures var s := Run(steps, limits).value;
      && s.permits + Holders(s.phases) == limits.slots
      && ((forall i :: 0 <= i < |s.phases| ==> s.phases[i].Over?) ==> s.permits == limits.slots && s.lock.None?)
  {
    EveryRunKeeps(steps, limits);
    AllBack(Run(steps, limits).value, limits);
  }

  /** At most one child waits for the user or runs what the user approved; any
      other prompt still before the user belongs to a child that is over. */
  lemma OneApprovalAtATime(steps: seq<Step>, limits: Limits, i: nat, j: nat)
    requires Run(steps, limits).Some?
    ensures var s := Run(steps, limits).value;
      && (i < |s.phases| && j < |s.phases| && HoldsLock(s.phases[i]) && HoldsLock(s.phases[j]) ==> i == j)
      && (i in s.unanswered && j in s.unanswered && i != j ==>
        i < |s.phases| && j < |s.phases| && (s.phases[i].Over? || s.phases[j].Over?))
  {
    EveryRunKeeps(steps, limits);
  }

  /** While the channel stays open, every child that is over has reported exactly
      one terminal status, or a detached task still holds its cancellation; no
      other child has reported any. */
  lemma OneTerminalReport(steps: seq<Step>, limits: Limits, i: nat)
    requires Run(steps, limits).Some? && Run(steps, limits).value.open
    ensures var s := Run(steps, limits).value;
      Terminals(s.received + s.queue, i) + Detached(s.detached, i) == if i < |s.phases| && s.phases[i].Over? then 1 else 0
  {
    EveryRunKeeps(steps, limits);
    var s := Run(steps, limits).value;
    assert ReportedOnce(s, i);
    TerminalsConcat(s.received, s.queue, i);
  }

  // ------------------------------------------------ prompts before the user

  /** The prompts that outlive their child: it was cancelled while it waited for
      the answer, and the user has not dealt with the prompt since. */
  function Lingering(steps: seq<Step>, limits: Limits): set<nat> {
    if steps == [] then {}
    else
      var before, last := steps[..|steps| - 1], steps[|steps| - 1];
      var s := Run(before, limits);
      match last
      case Cancel(i) => Lingering(before, limits) + (if s.Some? && In(s.value, i, Asked) then {i} else {})
      case Dismiss(i) => Lingering(before, limits) - {i}
      case _ => Lingering(before, limits)
  }

  /** No child is ever cancelled while it waits for an answer. */
  predicate Patient(steps: seq<Step>, limits: Limits) {
    steps == [] || (
      var before, last := steps[..|steps| - 1], steps[|steps| - 1];
      var s := Run(before, limits);
      Patient(before, limits) && !(last.Cancel? && s.Some? && In(s.value, last.child, Asked)))
  }

  ghost predicate PromptsAre(s: State, lingering: set<nat>) {
    && (forall i :: i in s.unanswered <==> In(s, i, Asked) || i in lingering)
    && (forall i :: i in lingering ==> In(s, i, Over))
  }

  lemma PromptStep(s: State, step: Step, limits: Limits, lingering: set<nat>)
    requires PromptsAre(s, lingering) && Enabled(s, step, limits)
    ensures PromptsAre(Apply(s, step, limits), match step
      case Cancel(i) => lingering + (if In(s, i, Asked) then {i} else {})
      case Dismiss(i) => lingering - {i}
      case _ => lingering)
  {
  }

  /** Exactly which prompts are before the user, in every interleaving. */
  lemma {:induction false} PromptsAreKnown(steps: seq<Step>, limits: Limits)
    requires Run(steps, limits).Some?
    ensures PromptsAre(Run(steps, limits).value, Lingering(steps, limits))
    decreases |steps|
  {
    if steps != [] {
      var before := steps[..|steps| - 1];
      PromptsAreKnown(before, limits);
      PromptStep(Run(before, limits).value, steps[|steps| - 1], limits, Lingering(before, limits));
    }
  }

  predicate AtMostOne(prompts: set<nat>) {
    forall i, j :: i in prompts && j in prompts ==> i == j
  }

  /** At most one prompt is before the user if and only if at most one lingers
      and, if one does, no child waits for an answer. */
  lemma OnePromptIff(steps: seq<Step>, limits: Limits)
    requires Run(steps, limits).Some?
    ensures var s, lingering := Run(steps, limits).value, Lingering(steps, limits);
      AtMostOne(s.unanswered) <==>
        AtMostOne(lingering) && (lingering == {} || forall i :: 0 <= i < |s.phases| ==> !s.phases[i].Asked?)
  {
    PromptsAreKnown(steps, limits);
    EveryRunKeeps(steps, limits);
    var s, lingering := Run(steps, limits).value, Lingering(steps, limits);
    if AtMostOne(s.unanswered) && lingering != {} {
      var l :| l in lingering;
      assert l in s.unanswered;
    }
  }

  lemma {:induction false} PatientNeverLingers(steps: seq<Step>, limits: Limits)
    requires Patient(steps, limits)
    ensures Lingering(steps, limits) == {}
    decreases |steps|
  {
    if steps != [] {
      PatientNeverLingers(steps[..|steps| - 1], limits);
    }
  }

  /** So where no child is cancelled while it waits, at most one child approval
      is unanswered, in every interleaving. */
  lemma OnePromptAtATime(steps: seq<Step>, limits: Limits)
    requires Run(steps, limits).Some? && Patient(steps, limits)
    ensures AtMostOne(Run(steps, limits).value.unanswered)
  {
    PatientNeverLingers(steps, limits);
    OnePromptIff(steps, limits);
  }

  /** And a second prompt needs one that lingers. */
  lemma SecondPromptLingers(steps: seq<Step>, limits: Limits, i: nat, j: nat)
    requires Run(steps, limits).Some? && i != j
    requires i in Run(steps, limits).value.unanswered && j in Run(steps, limits).value.unanswered
    ensures i in Lingering(steps, limits) || j in Lingering(steps, limits)
  {
    PromptsAreKnown(steps, limits);
    EveryRunKeeps(steps, limits);
  }

  lemma RunOne(steps: seq<Step>, step: Step, limits: Limits) returns (more: seq<Step>)
    requires Run(steps, limits).Some? && Enabled(Run(steps, limits).value, step, limits)
    ensures Run(more, limits) == Some(Apply(Run(steps, limits).value, step, limits))
  {
    more := steps + [step];
    assert more[..|steps|] == steps;
  }

  /** Brings a fresh child into its slot, and then to its prompt. */
  lemma Queues(steps: seq<Step>, s: State, limits: Limits, i: nat) returns (more: seq<Step>)
    requires Run(steps, limits) == Some(s) && In(s, i, Announcing)
    ensures Run(more, limits) == Some(s.(phases := s.phases[i := WaitingSlot]))
  {
    more := RunOne(steps, Queue(i), limits);
  }

  lemma Acquires(steps: seq<Step>, s: State, limits: Limits, i: nat) returns (more: seq<Step>)
    requires Run(steps, limits) == Some(s) && In(s, i, WaitingSlot) && s.permits > 0
    ensures Run(more, limits) == Some(s.(phases := s.phases[i := Working], permits := s.permits - 1))
  {
    more := RunOne(steps, Acquire(i), limits);
  }

  lemma Locks(steps: seq<Step>, s: State, limits: Limits, i: nat) returns (more: seq<Step>)
    requires Run(steps, limits) == Some(s) && In(s, i, Working) && s.lock.None?
    ensures Run(more, limits) == Some(s.(phases := s.phases[i := Asking], lock := Some(i)))
  {
    assert s.phases[i := WaitingLock][i := Asking] == s.phases[i := Asking];
    more := RunOne(steps, Want(i), limits);
    assert Run(more, limits) == Some(s.(phases := s.phases[i := WaitingLock]));
    more := RunOne(more, Lock(i), limits);
  }

  lemma Prompts(steps: seq<Step>, s: State, limits: Limits, i: nat) returns (more: seq<Step>)
    requires Run(steps, limits) == Some(s) && In(s, i, Asking) && s.open && |s.queue| < limits.capacity
    ensures Run(more, limits) == Some(s.(phases := s.phases[i := Asked], queue := s.queue + [Prompt(i)], unanswered := s.unanswered + {i}))
  {
    more := RunOne(steps, Ask(i), limits);
  }

  /** The lock alone does not keep the user from seeing two prompts: a cancelled
      child frees it and leaves its prompt behind. Here the second child is
      spawned by a later run, when no other child is alive. */
  lemma CancelledPromptLingers() returns (steps: seq<Step>)
    ensures Run(steps, Limits(2, 8)).Some? && Run(steps, Limits(2, 8)).value.unanswered == {0, 1}
  {
    var limits := Limits(2, 8);
    steps := RunOne([], Create, limits);
    steps := Queues(steps, Run(steps, limits).value, limits, 0);
    steps := Acquires(steps, Run(steps, limits).value, limits, 0);
    steps := Locks(steps, Run(steps, limits).value, limits, 0);
    steps := Prompts(steps, Run(steps, limits).value, limits, 0);
    steps := RunOne(steps, Cancel(0), limits);
    steps := RunOne(steps, Create, limits);
    steps := Queues(steps, Run(steps, limits).value, limits, 1);
    steps := Acquires(steps, Run(steps, limits).value, limits, 1);
    steps := Locks(steps, Run(steps, limits).value, limits, 1);
    steps := Prompts(steps, Run(steps, limits).value, limits, 1);
  }
}
