/** What `replay_safe_items` keeps, and when that is a valid history. */
module ReplayTheorems {
  import opened Protocol
  import opened Conversation
  import opened Sequences

  /** One call of a call item, or one output item. */
  datatype Atom = CallAt(item: nat, call: nat) | OutputAt(item: nat)

  predicate IsCall(items: seq<Item>, i: nat, j: nat) {
    i < |items| && items[i].AssistantToolCalls? && j < |items[i].calls|
  }

  predicate IsOutput(items: seq<Item>, i: nat) {
    i < |items| && items[i].ToolOutput?
  }

  /** Call `j` of item `i` bears the id of output `k`. */
  predicate Match(items: seq<Item>, i: nat, j: nat, k: nat) {
    IsCall(items, i, j) && IsOutput(items, k) && items[i].calls[j].id == items[k].callId
  }

  // -------------------------------------------------------- the kept choice

  /** The rule of `replay_safe_items`: a call is kept when some output, anywhere,
      has its id; an output when an earlier call is kept for it. */
  ghost predicate KeptCall(items: seq<Item>, i: nat, j: nat) {
    exists k: nat :: Match(items, i, j, k)
  }

  ghost predicate KeptOutput(items: seq<Item>, k: nat) {
    exists i: nat, j: nat :: i < k && Match(items, i, j, k)
  }

  ghost predicate Kept(items: seq<Item>, atom: Atom) {
    match atom
    case CallAt(i, j) => IsCall(items, i, j) && KeptCall(items, i, j)
    case OutputAt(k) => IsOutput(items, k) && KeptOutput(items, k)
  }

  ghost predicate AnsweredIn(items: seq<Item>, chosen: iset<Atom>, i: nat, j: nat) {
    exists k: nat :: i < k && OutputAt(k) in chosen && Match(items, i, j, k)
  }

  ghost predicate CalledIn(items: seq<Item>, chosen: iset<Atom>, k: nat) {
    exists i: nat, j: nat :: i < k && CallAt(i, j) in chosen && Match(items, i, j, k)
  }

  /** `chosen` drops some calls and outputs of `items` and is a history that an
      endpoint takes: outputs follow their call, calls get an answer later. */
  ghost predicate ValidChoice(items: seq<Item>, chosen: iset<Atom>) {
    forall atom :: atom in chosen ==> match atom
      case CallAt(i, j) => IsCall(items, i, j) && AnsweredIn(items, chosen, i, j)
      case OutputAt(k) => IsOutput(items, k) && CalledIn(items, chosen, k)
  }

  ghost function KeptAtoms(items: seq<Item>): iset<Atom> {
    iset atom | Kept(items, atom)
  }

  /** No valid sub-history keeps anything that the rule drops. */
  lemma KeptIsLargest(items: seq<Item>, chosen: iset<Atom>)
    requires ValidChoice(items, chosen)
    ensures chosen <= KeptAtoms(items)
  {
    forall atom | atom in chosen ensures Kept(items, atom) {
      match atom
      case CallAt(i, j) =>
        assert AnsweredIn(items, chosen, i, j);
      case OutputAt(k) =>
        assert CalledIn(items, chosen, k);
    }
  }

  /** An output is never kept without an earlier kept call. */
  lemma KeptOutputHasKeptCall(items: seq<Item>, k: nat) returns (i: nat, j: nat)
    requires Kept(items, OutputAt(k))
    ensures i < k && Match(items, i, j, k) && Kept(items, CallAt(i, j))
  {
    i, j :| 0 <= i < k && 0 <= j && Match(items, i, j, k);
  }

  /** No call has outputs, but only before it. */
  ghost predicate NoStaleOutputs(items: seq<Item>) {
    forall i: nat, j: nat, k: nat :: Match(items, i, j, k) ==> exists m: nat :: i < m && Match(items, i, j, m)
  }

  /** What is kept is itself such a history exactly when no call has outputs only
      before it. */
  lemma KeptIsValidIff(items: seq<Item>)
    ensures ValidChoice(items, KeptAtoms(items)) <==> NoStaleOutputs(items)
  {
    var kept := KeptAtoms(items);
    if ValidChoice(items, kept) {
      forall i: nat, j: nat, k: nat | Match(items, i, j, k) ensures exists m: nat :: i < m && Match(items, i, j, m) {
        assert CallAt(i, j) in kept;
        assert AnsweredIn(items, kept, i, j);
      }
    }
    if NoStaleOutputs(items) {
      forall i: nat, j: nat | CallAt(i, j) in kept ensures AnsweredIn(items, kept, i, j) {
        var k: nat :| Match(items, i, j, k);
        var m: nat :| i < m && Match(items, i, j, m);
        assert OutputAt(m) in kept;
      }
      forall k: nat | OutputAt(k) in kept ensures CalledIn(items, kept, k) {
        var i, j := KeptOutputHasKeptCall(items, k);
      }
    }
  }

  // ------------------------------------------- the code follows that choice

  /** The items from `n` on with only the chosen calls and outputs. */
  ghost function Select(items: seq<Item>, chosen: iset<Atom>, n: nat): seq<Item>
    requires n <= |items|
    decreases |items| - n
  {
    if n == |items| then []
    else match items[n]
      case AssistantToolCalls(calls) =>
        var kept := SelectCalls(items, chosen, n, 0);
        (if kept == [] then [] else [AssistantToolCalls(kept)]) + Select(items, chosen, n + 1)
      case ToolOutput(_, _) => (if OutputAt(n) in chosen then [items[n]] else []) + Select(items, chosen, n + 1)
      case item => [item] + Select(items, chosen, n + 1)
  }

  ghost function SelectCalls(items: seq<Item>, chosen: iset<Atom>, i: nat, j: nat): seq<ToolCall>
    requires i < |items| && items[i].AssistantToolCalls? && j <= |items[i].calls|
    decreases |items[i].calls| - j
  {
    if j == |items[i].calls| then []
    else (if CallAt(i, j) in chosen then [items[i].calls[j]] else []) + SelectCalls(items, chosen, i, j + 1)
  }

  lemma {:induction false} OnlyIsSelectCalls(items: seq<Item>, i: nat, j: nat)
    requires i < |items| && items[i].AssistantToolCalls? && j <= |items[i].calls|
    ensures Only(items[i].calls[j..], OutputIds(items)) == SelectCalls(items, KeptAtoms(items), i, j)
    decreases |items[i].calls| - j
  {
    var calls := items[i].calls;
    if j < |calls| {
      OnlyIsSelectCalls(items, i, j + 1);
      assert calls[j..][1..] == calls[j + 1..];
      KeptCallIffOutputId(items, i, j);
    }
  }

  lemma KeptCallIffOutputId(items: seq<Item>, i: nat, j: nat)
    requires IsCall(items, i, j)
    ensures KeptCall(items, i, j) <==> items[i].calls[j].id in OutputIds(items)
  {
    if items[i].calls[j].id in OutputIds(items) {
      var k :| 0 <= k < |items| && items[k].ToolOutput? && items[k].callId == items[i].calls[j].id;
      assert Match(items, i, j, k);
    }
  }

  /** `known` is what the loop has collected before item `n`. */
  ghost predicate Known(items: seq<Item>, n: nat, known: set<string>) {
    forall id :: id in known <==> CalledBefore(items, n, id)
  }

  ghost predicate CalledBefore(items: seq<Item>, n: nat, id: string) {
    exists i: nat, j: nat :: i < n && IsCall(items, i, j) && items[i].calls[j].id == id && KeptCall(items, i, j)
  }

  lemma {:induction false} IdsOfOnly(calls: seq<ToolCall>, ids: set<string>, id: string)
    ensures id in Ids(Only(calls, ids)) <==> id in Ids(calls) && id in ids
  {
    if calls != [] {
      IdsOfOnly(calls[1..], ids, id);
      IdsCons(calls[0], calls[1..]);
      assert [calls[0]] + calls[1..] == calls;
      IdsCons(calls[0], Only(calls[1..], ids));
      assert [] + Only(calls[1..], ids) == Only(calls[1..], ids);
    }
  }

  lemma IdsCons(call: ToolCall, calls: seq<ToolCall>)
    ensures Ids([call] + calls) == {call.id} + Ids(calls)
  {
    var all := [call] + calls;
    assert all[0] == call && all[1..] == calls;
    forall id ensures id in Ids(all) <==> id in {call.id} + Ids(calls) {
      if id in Ids(calls) {
        var k :| 0 <= k < |calls| && calls[k].id == id;
        assert all[k + 1].id == id;
      }
    }
  }

  lemma CalledBeforeStep(items: seq<Item>, n: nat, id: string)
    requires n < |items|
    ensures CalledBefore(items, n + 1, id)
      <==> (CalledBefore(items, n, id) || (items[n].AssistantToolCalls? && id in Ids(items[n].calls) && id in OutputIds(items)))
  {
    if items[n].AssistantToolCalls? && id in Ids(items[n].calls) {
      var j :| 0 <= j < |items[n].calls| && items[n].calls[j].id == id;
      KeptCallIffOutputId(items, n, j);
    }
    if CalledBefore(items, n + 1, id) {
      var i: nat, j: nat :| i < n + 1 && IsCall(items, i, j) && items[i].calls[j].id == id && KeptCall(items, i, j);
      KeptCallIffOutputId(items, i, j);
    }
  }

  lemma KeptOutputIffKnown(items: seq<Item>, n: nat)
    requires IsOutput(items, n)
    ensures KeptOutput(items, n) <==> CalledBefore(items, n, items[n].callId)
  {
    if KeptOutput(items, n) {
      var i: nat, j: nat :| i < n && Match(items, i, j, n);
      assert KeptCall(items, i, j);
    }
    if CalledBefore(items, n, items[n].callId) {
      var i: nat, j: nat :| i < n && IsCall(items, i, j) && items[i].calls[j].id == items[n].callId && KeptCall(items, i, j);
      assert Match(items, i, j, n);
    }
  }

  lemma {:induction false} ReplayIsSelect(items: seq<Item>, n: nat, known: set<string>)
    requires n <= |items| && Known(items, n, known)
    ensures Replay(items[n..], OutputIds(items), known) == Select(items, KeptAtoms(items), n)
    decreases |items| - n
  {
    if n < |items| {
      var outputs := OutputIds(items);
      var next := Learn(items[n], outputs, known);
      forall id ensures id in next <==> CalledBefore(items, n + 1, id) {
        CalledBeforeStep(items, n, id);
        if items[n].AssistantToolCalls? {
          IdsOfOnly(items[n].calls, outputs, id);
        }
      }
      ReplayIsSelect(items, n + 1, next);
      assert items[n..][1..] == items[n + 1..];
      if items[n].AssistantToolCalls? {
        OnlyIsSelectCalls(items, n, 0);
        assert items[n].calls[0..] == items[n].calls;
      } else if items[n].ToolOutput? {
        KeptOutputIffKnown(items, n);
      }
    }
  }

  /** The loop keeps exactly the chosen calls and outputs, in place. */
  lemma ReplaySafeIsSelect(items: seq<Item>)
    ensures ReplaySafe(items) == Select(items, KeptAtoms(items), 0)
  {
    assert items[0..] == items;
    ReplayIsSelect(items, 0, {});
  }

  /** `chosen` is valid, and every other valid choice is part of it. */
  ghost predicate LargestValid(items: seq<Item>, chosen: iset<Atom>) {
    ValidChoice(items, chosen) && forall other: iset<Atom> :: ValidChoice(items, other) ==> other <= chosen
  }

  ghost predicate IsOrdered(items: seq<Item>) {
    forall i: nat, j: nat, k: nat :: Match(items, i, j, k) ==> i < k
  }

  /** The replay is the history cut down to the largest valid choice of its calls
      and outputs, exactly when no call has outputs only before it; so it is for
      every history in which outputs follow their calls. */
  lemma ReplayIsLargestValid(items: seq<Item>)
    ensures ReplaySafe(items) == Select(items, KeptAtoms(items), 0)
    ensures LargestValid(items, KeptAtoms(items)) <==> NoStaleOutputs(items)
    ensures IsOrdered(items) ==> LargestValid(items, KeptAtoms(items))
  {
    ReplaySafeIsSelect(items);
    KeptIsValidIff(items);
    forall other: iset<Atom> | ValidChoice(items, other) ensures other <= KeptAtoms(items) {
      KeptIsLargest(items, other);
    }
  }

  // ------------------------------------------------------ applying it twice

  function CallIds(items: seq<Item>): set<string> {
    if items == [] then {}
    else (if items[0].AssistantToolCalls? then Ids(items[0].calls) else {}) + CallIds(items[1..])
  }

  function CallCount(items: seq<Item>): nat {
    if items == [] then 0
    else (if items[0].AssistantToolCalls? then |items[0].calls| else 0) + CallCount(items[1..])
  }

  lemma {:induction false} OnlyKeeps(calls: seq<ToolCall>, ids: set<string>)
    ensures |Only(calls, ids)| <= |calls|
    ensures Ids(calls) <= ids ==> Only(calls, ids) == calls
    ensures !(Ids(calls) <= ids) ==> |Only(calls, ids)| < |calls|
  {
    if calls != [] {
      OnlyKeeps(calls[1..], ids);
      IdsCons(calls[0], calls[1..]);
      assert [calls[0]] + calls[1..] == calls;
    }
  }

  lemma {:induction false} ReplayDrops(items: seq<Item>, outputs: set<string>, known: set<string>)
    ensures CallCount(Replay(items, outputs, known)) <= CallCount(items)
    ensures !(CallIds(items) <= outputs) ==> CallCount(Replay(items, outputs, known)) < CallCount(items)
  {
    if items != [] {
      var rest := Replay(items[1..], outputs, Learn(items[0], outputs, known));
      ReplayDrops(items[1..], outputs, Learn(items[0], outputs, known));
      if items[0].AssistantToolCalls? {
        OnlyKeeps(items[0].calls, outputs);
      }
      var emitted := Emit(items[0], outputs, known);
      assert emitted == [] ==> emitted + rest == rest;
      assert emitted != [] ==> (emitted + rest)[0] == emitted[0] && (emitted + rest)[1..] == rest;
    }
  }

  lemma {:induction false} ReplayAgain(items: seq<Item>, outputs: set<string>, known: set<string>, again: set<string>)
    requires CallIds(Replay(items, outputs, known)) <= again
    ensures Replay(Replay(items, outputs, known), again, known) == Replay(items, outputs, known)
  {
    if items != [] {
      var next := Learn(items[0], outputs, known);
      var rest := Replay(items[1..], outputs, next);
      var emitted := Emit(items[0], outputs, known);
      if emitted == [] {
        assert emitted + rest == rest;
        assert Ids([]) == {} && next == known;
      } else {
        assert (emitted + rest)[0] == emitted[0] && (emitted + rest)[1..] == rest;
        if items[0].AssistantToolCalls? {
          OnlyKeeps(emitted[0].calls, again);
        }
      }
      ReplayAgain(items[1..], outputs, next, again);
    }
  }

  /** The ids of the result, told from the input. */
  lemma {:induction false} SelectIds(items: seq<Item>, n: nat, id: string)
    requires n <= |items|
    ensures SelectsId(items, n, id)
    decreases |items| - n
  {
    if n < |items| {
      SelectIds(items, n + 1, id);
      if items[n].AssistantToolCalls? {
        SelectIdsOfCalls(items, n, id);
      } else {
        SelectIdsOfOther(items, n, id);
      }
    }
  }

  ghost predicate SelectsId(items: seq<Item>, n: nat, id: string)
    requires n <= |items|
  {
    && (id in CallIds(Select(items, KeptAtoms(items), n)) <==> CalledFrom(items, n, id))
    && (id in OutputIds(Select(items, KeptAtoms(items), n)) <==> AnsweredFrom(items, n, id))
  }

  lemma SelectIdsOfCalls(items: seq<Item>, n: nat, id: string)
    requires n < |items| && items[n].AssistantToolCalls? && SelectsId(items, n + 1, id)
    ensures SelectsId(items, n, id)
  {
    SelectCallsIds(items, n, 0, id);
    CalledFromStep(items, n, id);
    if SelectCalls(items, KeptAtoms(items), n, 0) == [] {
      assert [] + Select(items, KeptAtoms(items), n + 1) == Select(items, KeptAtoms(items), n + 1);
    } else {
      OutputIdsCons(AssistantToolCalls(SelectCalls(items, KeptAtoms(items), n, 0)), Select(items, KeptAtoms(items), n + 1));
    }
  }

  lemma SelectIdsOfOther(items: seq<Item>, n: nat, id: string)
    requires n < |items| && !items[n].AssistantToolCalls? && SelectsId(items, n + 1, id)
    ensures SelectsId(items, n, id)
  {
    CalledFromStep(items, n, id);
    if items[n].ToolOutput? && !KeptOutput(items, n) {
      assert [] + Select(items, KeptAtoms(items), n + 1) == Select(items, KeptAtoms(items), n + 1);
    } else {
      OutputIdsCons(items[n], Select(items, KeptAtoms(items), n + 1));
    }
  }

  lemma OutputIdsCons(item: Item, rest: seq<Item>)
    ensures OutputIds([item] + rest) == (if item.ToolOutput? then {item.callId} else {}) + OutputIds(rest)
    ensures CallIds([item] + rest) == (if item.AssistantToolCalls? then Ids(item.calls) else {}) + CallIds(rest)
  {
    var all := [item] + rest;
    assert all[0] == item && all[1..] == rest;
    forall id ensures id in OutputIds(all) <==> id in (if item.ToolOutput? then {item.callId} else {}) + OutputIds(rest) {
      if id in OutputIds(rest) {
        var k :| 0 <= k < |rest| && rest[k].ToolOutput? && rest[k].callId == id;
        assert all[k + 1] == rest[k];
      }
      if id in OutputIds(all) {
        var k :| 0 <= k < |all| && all[k].ToolOutput? && all[k].callId == id;
        assert k > 0 ==> rest[k - 1] == all[k];
      }
    }
  }

  ghost predicate CalledFrom(items: seq<Item>, n: nat, id: string) {
    exists i: nat, j: nat :: n <= i && IsCall(items, i, j) && items[i].calls[j].id == id && KeptCall(items, i, j)
  }

  ghost predicate AnsweredFrom(items: seq<Item>, n: nat, id: string) {
    exists k: nat :: n <= k && IsOutput(items, k) && items[k].callId == id && KeptOutput(items, k)
  }

  /** Item `i` keeps a call with this id, at `j` or later. */
  ghost predicate KeepsId(items: seq<Item>, i: nat, j: nat, id: string) {
    exists k: nat :: j <= k && IsCall(items, i, k) && items[i].calls[k].id == id && KeptCall(items, i, k)
  }

  lemma KeepsIdStep(items: seq<Item>, i: nat, j: nat, id: string)
    requires IsCall(items, i, j)
    ensures KeepsId(items, i, j, id) <==> KeepsId(items, i, j + 1, id) || (items[i].calls[j].id == id && KeptCall(items, i, j))
  {
  }

  lemma CalledFromStep(items: seq<Item>, n: nat, id: string)
    requires n < |items|
    ensures CalledFrom(items, n, id) <==>
      (CalledFrom(items, n + 1, id) || KeepsId(items, n, 0, id))
    ensures AnsweredFrom(items, n, id) <==>
      (AnsweredFrom(items, n + 1, id) || (IsOutput(items, n) && items[n].callId == id && KeptOutput(items, n)))
  {
  }

  lemma IdsConsIf(keep: bool, call: ToolCall, rest: seq<ToolCall>, id: string)
    ensures id in Ids((if keep then [call] else []) + rest) <==> (keep && call.id == id) || id in Ids(rest)
  {
    IdsCons(call, rest);
    assert [] + rest == rest;
  }

  lemma {:induction false} SelectCallsIds(items: seq<Item>, i: nat, j: nat, id: string)
    requires i < |items| && items[i].AssistantToolCalls? && j <= |items[i].calls|
    ensures id in Ids(SelectCalls(items, KeptAtoms(items), i, j)) <==> KeepsId(items, i, j, id)
    decreases |items[i].calls| - j
  {
    if j < |items[i].calls| {
      SelectCallsIds(items, i, j + 1, id);
      KeepsIdStep(items, i, j, id);
      assert CallAt(i, j) in KeptAtoms(items) <==> KeptCall(items, i, j);
      IdsConsIf(CallAt(i, j) in KeptAtoms(items), items[i].calls[j], SelectCalls(items, KeptAtoms(items), i, j + 1), id);
    }
  }

  /** Every id that is called and answered is answered after some call of it. */
  ghost predicate Connected(items: seq<Item>) {
    forall i: nat, j: nat, k: nat :: Match(items, i, j, k) ==> AnsweredFrom(items, 0, items[k].callId)
  }

  /** A second application changes nothing exactly when no id has all its
      outputs before all its calls. */
  lemma ReplayTwiceIff(items: seq<Item>)
    ensures ReplaySafe(ReplaySafe(items)) == ReplaySafe(items) <==> Connected(items)
  {
    var r := ReplaySafe(items);
    ReplaySafeIsSelect(items);
    forall id ensures id in CallIds(r) <==> CalledFrom(items, 0, id) {
      SelectIds(items, 0, id);
    }
    forall id ensures id in OutputIds(r) <==> AnsweredFrom(items, 0, id) {
      SelectIds(items, 0, id);
    }
    if CallIds(r) <= OutputIds(r) {
      ReplayAgain(items, OutputIds(items), {}, OutputIds(r));
      forall i: nat, j: nat, k: nat | Match(items, i, j, k) ensures AnsweredFrom(items, 0, items[k].callId) {
        assert KeptCall(items, i, j);
        assert CalledFrom(items, 0, items[k].callId);
      }
    } else {
      ReplayDrops(r, OutputIds(r), {});
      var id :| id in CallIds(r) && id !in OutputIds(r);
      var i: nat, j: nat :| IsCall(items, i, j) && items[i].calls[j].id == id && KeptCall(items, i, j);
      var k: nat :| Match(items, i, j, k);
    }
  }

  /** An output before its only call: the call is kept unanswered at first, and
      dropped by a second application. */
  lemma StaleOutputIsNotStable(call: ToolCall, output: string)
    ensures var items := [ToolOutput(call.id, output), AssistantToolCalls([call])];
      ReplaySafe(items) == [AssistantToolCalls([call])] && ReplaySafe(ReplaySafe(items)) == []
  {
    var items := [ToolOutput(call.id, output), AssistantToolCalls([call])];
    var asked := [AssistantToolCalls([call])];
    assert items[0].callId in OutputIds(items);
    assert items[1..] == asked && asked[1..] == [] && [call][1..] == [];
    assert Only([call], OutputIds(items)) == [call];
    OnlyKeeps([call], {});
    assert call.id in Ids([call]) by { assert [call][0].id == call.id; }
    assert Replay(asked, OutputIds(items), {}) == asked + Replay([], OutputIds(items), {} + Ids([call]));
    assert ReplaySafe(items) == [] + Replay(asked, OutputIds(items), {});
    assert OutputIds(asked) == {};
    assert ReplaySafe(asked) == [] + Replay([], {}, {} + Ids([]));
  }

  // ------------------------------------------------------ a run's own items

  /** Every output follows a call with its id, in `items` or in `known`. */
  predicate Ordered(items: seq<Item>, known: set<string>) {
    items == [] || (
      && (items[0].ToolOutput? ==> items[0].callId in known)
      && (items[0].AssistantToolCalls? ==> items[0].calls != [])
      && Ordered(items[1..], if items[0].AssistantToolCalls? then known + Ids(items[0].calls) else known))
  }

  lemma {:induction false} ReplayKeeps(items: seq<Item>, outputs: set<string>, known: set<string>, more: set<string>)
    requires Ordered(items, known) && CallIds(items) <= outputs && known <= more
    ensures Replay(items, outputs, more) == items
  {
    if items != [] {
      if items[0].AssistantToolCalls? {
        OnlyKeeps(items[0].calls, outputs);
        ReplayKeeps(items[1..], outputs, known + Ids(items[0].calls), more + Ids(items[0].calls));
      } else {
        ReplayKeeps(items[1..], outputs, known, more);
      }
      assert items == [items[0]] + items[1..];
    }
  }

  function LearnAll(items: seq<Item>, outputs: set<string>, known: set<string>): set<string> {
    if items == [] then known else LearnAll(items[1..], outputs, Learn(items[0], outputs, known))
  }

  lemma {:induction false} ReplayConcat(a: seq<Item>, b: seq<Item>, outputs: set<string>, known: set<string>)
    ensures Replay(a + b, outputs, known) == Replay(a, outputs, known) + Replay(b, outputs, LearnAll(a, outputs, known))
  {
    if a == [] {
      assert a + b == b && [] + Replay(b, outputs, known) == Replay(b, outputs, known);
    } else {
      var next := Learn(a[0], outputs, known);
      ReplayConcat(a[1..], b, outputs, next);
      assert (a + b)[0] == a[0] && (a + b)[1..] == a[1..] + b;
      Assoc(Emit(a[0], outputs, known), Replay(a[1..], outputs, next), Replay(b, outputs, LearnAll(a, outputs, known)));
    }
  }

  /** Items in which every call is answered and every output is called for are
      replayed unchanged behind any history. */
  lemma AnsweredTailIsReplayed(history: seq<Item>, own: seq<Item>)
    requires Ordered(own, {}) && CallIds(own) <= OutputIds(own)
    ensures ReplaySafe(history + own) == Replay(history, OutputIds(history + own), {}) + own
  {
    var outputs := OutputIds(history + own);
    forall id | id in OutputIds(own) ensures id in outputs {
      var k :| 0 <= k < |own| && own[k].ToolOutput? && own[k].callId == id;
      assert (history + own)[|history| + k] == own[k];
    }
    ReplayConcat(history, own, outputs, {});
    ReplayKeeps(own, outputs, {}, LearnAll(history, outputs, {}));
  }
}
