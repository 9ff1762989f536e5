/** The shape of what a run appends: every batch of tool calls is followed at
    once by exactly one output for each of its calls. */
module ToolBlocks {
  import opened Protocol
  import opened Conversation
  import opened Compaction
  import opened ReplayTheorems

  /** Neither user input nor part of a tool exchange. */
  predicate Plain(item: Item) {
    !item.AssistantToolCalls? && !item.ToolOutput? && !IsUserMessage(item)
  }

  function CallBag(calls: seq<ToolCall>): multiset<string> {
    if calls == [] then multiset{} else multiset{calls[0].id} + CallBag(calls[1..])
  }

  function BagOf(item: Item): multiset<string> {
    if item.ToolOutput? then multiset{item.callId} else multiset{}
  }

  function OutputBag(outputs: seq<Item>): multiset<string> {
    if outputs == [] then multiset{} else BagOf(outputs[0]) + OutputBag(outputs[1..])
  }

  predicate AllOutputs(items: seq<Item>) {
    forall i :: 0 <= i < |items| ==> items[i].ToolOutput?
  }

  /** One output for each call, in any order. */
  predicate Answers(outputs: seq<Item>, calls: seq<ToolCall>) {
    |outputs| == |calls| && AllOutputs(outputs) && OutputBag(outputs) == CallBag(calls)
  }

  predicate Blocks(items: seq<Item>)
    decreases |items|
  {
    items == [] || (
      if items[0].AssistantToolCalls? then
        var n := |items[0].calls|;
        n > 0 && n < |items| && Answers(items[1..1 + n], items[0].calls) && Blocks(items[1 + n..])
      else Plain(items[0]) && Blocks(items[1..]))
  }

  lemma SlicesOfConcat<T>(a: seq<T>, b: seq<T>, i: nat, j: nat)
    requires i <= j <= |a|
    ensures (a + b)[i..j] == a[i..j] && (a + b)[j..] == a[j..] + b
  {
  }

  lemma BlocksBegin(items: seq<Item>, n: nat)
    requires n < |items| && items[0].AssistantToolCalls? && n == |items[0].calls| > 0
    requires Answers(items[1..1 + n], items[0].calls) && Blocks(items[1 + n..])
    ensures Blocks(items)
  {
  }

  lemma {:induction false} BlocksConcat(a: seq<Item>, b: seq<Item>)
    requires Blocks(a) && Blocks(b)
    ensures Blocks(a + b)
    decreases |a|
  {
    if a == [] {
      assert a + b == b;
    } else if a[0].AssistantToolCalls? {
      var n := |a[0].calls|;
      BlocksConcat(a[1 + n..], b);
      SlicesOfConcat(a, b, 1, 1 + n);
      BlocksBegin(a + b, n);
    } else {
      BlocksConcat(a[1..], b);
      SlicesOfConcat(a, b, 0, 1);
    }
  }

  lemma {:induction false} DropLeadingOutputs(outputs: seq<Item>, rest: seq<Item>)
    requires AllOutputs(outputs) && (rest == [] || !rest[0].ToolOutput?)
    ensures DropOutputs(outputs + rest) == rest
    decreases |outputs|
  {
    if outputs == [] {
      assert outputs + rest == rest;
    } else {
      assert (outputs + rest)[0] == outputs[0] && (outputs + rest)[1..] == outputs[1..] + rest;
      DropLeadingOutputs(outputs[1..], rest);
    }
  }

  /** Cutting blocks anywhere and dropping orphaned outputs leaves blocks. */
  lemma {:induction false} TrimKeepsBlocks(items: seq<Item>, k: nat)
    requires Blocks(items) && k <= |items|
    ensures Blocks(DropOutputs(items[k..]))
    decreases |items|
  {
    if k == 0 {
      assert items[0..] == items;
    } else if items[0].AssistantToolCalls? {
      var n := |items[0].calls|;
      var rest := items[1 + n..];
      if k <= 1 + n {
        assert items[k..] == items[1..1 + n][k - 1..] + rest;
        DropLeadingOutputs(items[1..1 + n][k - 1..], rest);
      } else {
        assert items[k..] == rest[k - 1 - n..];
        TrimKeepsBlocks(rest, k - 1 - n);
      }
    } else {
      assert items[k..] == items[1..][k - 1..];
      TrimKeepsBlocks(items[1..], k - 1);
    }
  }

  lemma {:induction false} NoUserMessageInBlocks(items: seq<Item>, i: nat)
    requires Blocks(items) && i < |items|
    ensures !IsUserMessage(items[i])
    decreases |items|
  {
    if items[0].AssistantToolCalls? {
      var n := |items[0].calls|;
      if i > n {
        NoUserMessageInBlocks(items[1 + n..], i - 1 - n);
      } else if i > 0 {
        assert items[1..1 + n][i - 1].ToolOutput?;
      }
    } else if i > 0 {
      NoUserMessageInBlocks(items[1..], i - 1);
    }
  }

  lemma {:induction false} BagHasIds(calls: seq<ToolCall>, id: string)
    ensures id in CallBag(calls) <==> id in Ids(calls)
  {
    if calls != [] {
      BagHasIds(calls[1..], id);
      assert [calls[0]] + calls[1..] == calls;
      IdsCons(calls[0], calls[1..]);
    }
  }

  lemma {:induction false} BagHasOutputIds(items: seq<Item>, id: string)
    ensures id in OutputBag(items) <==> id in OutputIds(items)
  {
    if items != [] {
      BagHasOutputIds(items[1..], id);
      assert [items[0]] + items[1..] == items;
      OutputIdsCons(items[0], items[1..]);
    }
  }

  lemma {:induction false} OutputsAreOrdered(outputs: seq<Item>, rest: seq<Item>, known: set<string>)
    requires AllOutputs(outputs) && OutputIds(outputs) <= known && Ordered(rest, known)
    ensures Ordered(outputs + rest, known)
    ensures CallIds(outputs + rest) == CallIds(rest) && OutputIds(outputs + rest) == OutputIds(outputs) + OutputIds(rest)
    decreases |outputs|
  {
    if outputs == [] {
      assert outputs + rest == rest;
    } else {
      assert [outputs[0]] + outputs[1..] == outputs;
      assert (outputs + rest)[0] == outputs[0] && (outputs + rest)[1..] == outputs[1..] + rest;
      assert [outputs[0]] + (outputs[1..] + rest) == outputs + rest;
      OutputIdsCons(outputs[0], outputs[1..]);
      OutputIdsCons(outputs[0], outputs[1..] + rest);
      OutputsAreOrdered(outputs[1..], rest, known);
    }
  }

  lemma {:induction false} BlocksAreAnswered(items: seq<Item>, known: set<string>)
    requires Blocks(items)
    ensures Ordered(items, known) && CallIds(items) <= OutputIds(items)
    decreases |items|
  {
    if items != [] {
      assert [items[0]] + items[1..] == items;
      OutputIdsCons(items[0], items[1..]);
      if items[0].AssistantToolCalls? {
        var calls := items[0].calls;
        var n := |calls|;
        var outputs, rest := items[1..1 + n], items[1 + n..];
        assert items[1..] == outputs + rest;
        forall id ensures id in OutputIds(outputs) <==> id in Ids(calls) {
          BagHasIds(calls, id);
          BagHasOutputIds(outputs, id);
        }
        BlocksAreAnswered(rest, known + Ids(calls));
        OutputsAreOrdered(outputs, rest, known + Ids(calls));
      } else {
        BlocksAreAnswered(items[1..], known);
      }
    }
  }

  /** Whatever precedes it, a run's own part survives `replay_safe_items`. */
  lemma BlocksAreReplayed(history: seq<Item>, own: seq<Item>)
    requires Blocks(own)
    ensures ReplaySafe(history + own) == Replay(history, OutputIds(history + own), {}) + own
  {
    BlocksAreAnswered(own, {});
    AnsweredTailIsReplayed(history, own);
  }

  /** The ids of all calls in a history. */
  function CallsIn(items: seq<Item>): multiset<string> {
    if items == [] then multiset{}
    else (if items[0].AssistantToolCalls? then CallBag(items[0].calls) else multiset{}) + CallsIn(items[1..])
  }

  lemma {:induction false} OutputsHaveNoCalls(outputs: seq<Item>, rest: seq<Item>)
    requires AllOutputs(outputs)
    ensures CallsIn(outputs + rest) == CallsIn(rest)
    ensures OutputBag(outputs + rest) == OutputBag(outputs) + OutputBag(rest)
    decreases |outputs|
  {
    if outputs == [] {
      assert outputs + rest == rest;
    } else {
      assert (outputs + rest)[0] == outputs[0] && (outputs + rest)[1..] == outputs[1..] + rest;
      OutputsHaveNoCalls(outputs[1..], rest);
    }
  }

  /** In blocks, as many outputs as calls carry each id. */
  lemma {:induction false} BlocksBalance(items: seq<Item>)
    requires Blocks(items)
    ensures CallsIn(items) == OutputBag(items)
    decreases |items|
  {
    if items != [] {
      if items[0].AssistantToolCalls? {
        var n := |items[0].calls|;
        assert items[1..] == items[1..1 + n] + items[1 + n..];
        OutputsHaveNoCalls(items[1..1 + n], items[1 + n..]);
        BlocksBalance(items[1 + n..]);
      } else {
        BlocksBalance(items[1..]);
      }
    }
  }
}
