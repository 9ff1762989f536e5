/** The partial tool calls that a model stream adds up to, told from its events. */
module PartialCalls {
  import opened Wrappers
  import opened Protocol
  import opened StreamCollecting
  import CanonicalJson

  // --------------------------------------------------- what a slot's deltas say

  predicate IsDeltaOf(e: ModelEvent, slot: string) {
    e.ToolCallDelta? && e.slot == slot
  }

  ghost predicate HasDelta(events: seq<ModelEvent>, slot: string) {
    exists i :: 0 <= i < |events| && IsDeltaOf(events[i], slot)
  }

  /** The arguments that the events give for a slot, joined. */
  function ArgumentsOf(events: seq<ModelEvent>, slot: string): string {
    if events == [] then []
    else
      var last := events[|events| - 1];
      ArgumentsOf(events[..|events| - 1], slot) + (if IsDeltaOf(last, slot) then last.arguments else [])
  }

  /** The id that the deltas of a slot give it: the last one. */
  function IdOf(events: seq<ModelEvent>, slot: string): Option<string> {
    if events == [] then None
    else
      var last := events[|events| - 1];
      if IsDeltaOf(last, slot) && last.id.Some? then last.id else IdOf(events[..|events| - 1], slot)
  }

  function NameOf(events: seq<ModelEvent>, slot: string): Option<string> {
    if events == [] then None
    else
      var last := events[|events| - 1];
      if IsDeltaOf(last, slot) && last.name.Some? then last.name else NameOf(events[..|events| - 1], slot)
  }

  function OrEmpty(s: Option<string>): string {
    if s.Some? then s.value else ""
  }

  /** The partial call that the deltas of a slot make. */
  function Gathered(events: seq<ModelEvent>, slot: string): Partial {
    Partial(OrEmpty(IdOf(events, slot)), OrEmpty(NameOf(events, slot)), ArgumentsOf(events, slot))
  }

  /** The ids of the complete calls. */
  function IdsOf(events: seq<ModelEvent>): set<string> {
    if events == [] then {}
    else
      var last := events[|events| - 1];
      IdsOf(events[..|events| - 1]) + (if last.ToolCallComplete? then {last.call.id} else {})
  }

  // -------------------------------------------------------- where a slot begins

  /** A complete call at `from - 1` has ended what the slot had gathered from
      `before` on: it bears its id. */
  ghost predicate Ends(events: seq<ModelEvent>, slot: string, before: nat, from: nat)
    requires before < from <= |events|
  {
    && events[from - 1].ToolCallComplete?
    && HasDelta(events[before..from - 1], slot)
    && Gathered(events[before..from - 1], slot).id == events[from - 1].call.id
  }

  /** The slot may begin anew at `from`: at the start, or behind a complete call
      that ended it. */
  ghost predicate Begins(events: seq<ModelEvent>, slot: string, from: nat)
    requires from <= |events|
    decreases from
  {
    from == 0 || exists before :: 0 <= before < from && Begins(events, slot, before) && Ends(events, slot, before, from)
  }

  /** `partials` holds for the slot what its deltas from `from` on make. */
  ghost predicate JoinedFrom(events: seq<ModelEvent>, partials: map<string, Partial>, slot: string, from: nat) {
    && from <= |events| && Begins(events, slot, from)
    && (slot in partials <==> HasDelta(events[from..], slot))
    && (slot in partials ==> partials[slot] == Gathered(events[from..], slot))
  }

  ghost predicate JoinedSlot(events: seq<ModelEvent>, partials: map<string, Partial>, slot: string) {
    exists from :: JoinedFrom(events, partials, slot, from)
  }

  ghost predicate Joined(events: seq<ModelEvent>, partials: map<string, Partial>) {
    forall slot :: JoinedSlot(events, partials, slot)
  }

  lemma NothingJoined()
    ensures Joined([], map[])
  {
    forall slot ensures JoinedSlot([], map[], slot) {
      assert JoinedFrom([], map[], slot, 0);
    }
  }

  lemma {:induction false} BeginsStays(events: seq<ModelEvent>, e: ModelEvent, slot: string, from: nat)
    requires from <= |events| && Begins(events, slot, from)
    ensures Begins(events + [e], slot, from)
    decreases from
  {
    if from > 0 {
      var before :| 0 <= before < from && Begins(events, slot, before) && Ends(events, slot, before, from);
      BeginsStays(events, e, slot, before);
      assert (events + [e])[before..from - 1] == events[before..from - 1];
      assert Ends(events + [e], slot, before, from);
    }
  }

  lemma DeltaSnoc(events: seq<ModelEvent>, e: ModelEvent, slot: string)
    ensures HasDelta(events + [e], slot) <==> HasDelta(events, slot) || IsDeltaOf(e, slot)
  {
    var all := events + [e];
    assert all[|events|] == e;
    if HasDelta(events, slot) {
      var i :| 0 <= i < |events| && IsDeltaOf(events[i], slot);
      assert IsDeltaOf(all[i], slot);
    }
    if HasDelta(all, slot) && !IsDeltaOf(e, slot) {
      var i :| 0 <= i < |all| && IsDeltaOf(all[i], slot);
      assert IsDeltaOf(events[i], slot);
    }
  }

  lemma GatheredSnoc(events: seq<ModelEvent>, e: ModelEvent, slot: string)
    ensures Gathered(events + [e], slot) ==
      if IsDeltaOf(e, slot) then Merged(Gathered(events, slot), e.id, e.name, e.arguments) else Gathered(events, slot)
  {
    assert (events + [e])[..|events|] == events;
    assert ArgumentsOf(events, slot) + [] == ArgumentsOf(events, slot);
  }

  lemma {:induction false} NothingGathered(events: seq<ModelEvent>, slot: string)
    requires !HasDelta(events, slot)
    ensures Gathered(events, slot) == Partial("", "", "")
  {
    if events != [] {
      var n := |events| - 1;
      assert events == events[..n] + [events[n]];
      DeltaSnoc(events[..n], events[n], slot);
      NothingGathered(events[..n], slot);
      GatheredSnoc(events[..n], events[n], slot);
    }
  }

  /** A slot that the event leaves alone, or whose delta is merged. */
  lemma JoinedGoesOn(events: seq<ModelEvent>, e: ModelEvent, partials: map<string, Partial>, after: map<string, Partial>,
                     slot: string, from: nat)
    requires JoinedFrom(events, partials, slot, from)
    requires slot in after <==> slot in partials || IsDeltaOf(e, slot)
    requires slot in after ==>
      after[slot] == if IsDeltaOf(e, slot) then Merged(Held(partials, slot), e.id, e.name, e.arguments) else partials[slot]
    ensures JoinedFrom(events + [e], after, slot, from)
  {
    var since := events[from..];
    assert (events + [e])[from..] == since + [e];
    BeginsStays(events, e, slot, from);
    DeltaSnoc(since, e, slot);
    GatheredSnoc(since, e, slot);
    if slot !in partials {
      NothingGathered(since, slot);
    }
  }

  /** A slot whose call is complete begins anew. */
  lemma JoinedEnds(events: seq<ModelEvent>, e: ModelEvent, partials: map<string, Partial>, after: map<string, Partial>,
                   slot: string, from: nat)
    requires JoinedFrom(events, partials, slot, from) && slot in partials && slot !in after
    requires e.ToolCallComplete? && partials[slot].id == e.call.id
    ensures JoinedFrom(events + [e], after, slot, |events| + 1)
  {
    var all := events + [e];
    BeginsStays(events, e, slot, from);
    assert all[from..|events|] == events[from..];
    assert Ends(all, slot, from, |events| + 1);
    assert all[|events| + 1..] == [];
  }

  lemma JoinedNext(events: seq<ModelEvent>, e: ModelEvent, partials: map<string, Partial>, after: map<string, Partial>)
    requires Joined(events, partials) && Taken(partials, e, after)
    ensures Joined(events + [e], after)
  {
    forall slot ensures JoinedSlot(events + [e], after, slot) {
      JoinedSlotNext(events, e, partials, after, slot);
    }
  }

  lemma JoinedSlotNext(events: seq<ModelEvent>, e: ModelEvent, partials: map<string, Partial>, after: map<string, Partial>, slot: string)
    requires JoinedSlot(events, partials, slot) && Taken(partials, e, after)
    ensures JoinedSlot(events + [e], after, slot)
  {
    var from :| JoinedFrom(events, partials, slot, from);
    if slot in partials && slot !in after {
      JoinedEnds(events, e, partials, after, slot, from);
    } else {
      JoinedGoesOn(events, e, partials, after, slot, from);
    }
  }

  // ------------------------------------------------- the calls made in the end

  /** The call is what the slot's deltas from `from` on ask for. */
  ghost predicate MadeFrom(events: seq<ModelEvent>, slot: string, from: nat, call: ToolCall,
                           parse: string -> Option<CanonicalJson.Json>, freshId: string -> string)
  {
    && from <= |events| && Begins(events, slot, from) && Asks(events[from..], slot, IdsOf(events))
    && var id, arguments := OrEmpty(IdOf(events[from..], slot)), ArgumentsOf(events[from..], slot);
    && Some(call.name) == NameOf(events[from..], slot) && call.id == (if id == "" then freshId(slot) else id)
    && parse(if arguments == "" then "{}" else arguments) == Some(call.arguments)
  }

  /** What the slot has gathered at the end is the call of a slot of `order`, or
      nothing to be called. */
  ghost predicate CalledFrom(events: seq<ModelEvent>, slot: string, from: nat, order: seq<string>) {
    && from <= |events| && Begins(events, slot, from)
    && (Asks(events[from..], slot, IdsOf(events)) ==> slot in order)
  }

  /** The slot's deltas name a tool, under an id that no complete call bears. */
  ghost predicate Asks(events: seq<ModelEvent>, slot: string, completed: set<string>) {
    HasDelta(events, slot) && OrEmpty(NameOf(events, slot)) != "" && OrEmpty(IdOf(events, slot)) !in completed
  }

  ghost predicate Called(events: seq<ModelEvent>, slot: string, order: seq<string>) {
    exists from :: CalledFrom(events, slot, from, order)
  }

  ghost predicate Made(events: seq<ModelEvent>, slot: string, call: ToolCall,
                       parse: string -> Option<CanonicalJson.Json>, freshId: string -> string)
  {
    exists from :: MadeFrom(events, slot, from, call, parse, freshId)
  }

  /** `calls` are made of the slots `order`, one of each, and none is left out. */
  ghost predicate MadeOf(events: seq<ModelEvent>, calls: seq<ToolCall>, order: seq<string>,
                         parse: string -> Option<CanonicalJson.Json>, freshId: string -> string)
  {
    && |order| == |calls|
    && (forall i, j :: 0 <= i < j < |order| ==> order[i] != order[j])
    && (forall k :: 0 <= k < |calls| ==> Made(events, order[k], calls[k], parse, freshId))
    && (forall slot :: Called(events, slot, order))
  }

  lemma {:induction false} FinishedAt(partials: map<string, Partial>, order: seq<string>, k: nat,
                                      parse: string -> Option<CanonicalJson.Json>, freshId: string -> string)
    requires k < |order|
    ensures var calls := Finished(partials, order, parse, freshId);
      |calls| == |order| && calls[k] == CallOf(Held(partials, order[k]), order[k], parse, freshId)
  {
    var n := |order| - 1;
    if n > 0 {
      FinishedAt(partials, order[..n], if k < n then k else 0, parse, freshId);
    } else {
      assert order[..n] == [];
    }
  }

  lemma FinishedIsMade(events: seq<ModelEvent>, partials: map<string, Partial>, order: seq<string>, k: nat,
                       parse: string -> Option<CanonicalJson.Json>, freshId: string -> string)
    requires Joined(events, partials) && k < |order| && order[k] in partials && Named(partials[order[k]], IdsOf(events))
    requires parse(Arguments(partials[order[k]])).Some?
    ensures var calls := Finished(partials, order, parse, freshId);
      |calls| == |order| && Made(events, order[k], calls[k], parse, freshId)
  {
    FinishedAt(partials, order, k, parse, freshId);
    assert JoinedSlot(events, partials, order[k]);
    CallIsMade(events, partials, order[k], parse, freshId);
  }

  lemma CallIsMade(events: seq<ModelEvent>, partials: map<string, Partial>, slot: string,
                   parse: string -> Option<CanonicalJson.Json>, freshId: string -> string)
    requires JoinedSlot(events, partials, slot) && slot in partials && Named(partials[slot], IdsOf(events))
    requires parse(Arguments(partials[slot])).Some?
    ensures Made(events, slot, CallOf(partials[slot], slot, parse, freshId), parse, freshId)
  {
    var from :| JoinedFrom(events, partials, slot, from);
    assert MadeFrom(events, slot, from, CallOf(partials[slot], slot, parse, freshId), parse, freshId);
  }

  lemma FinishedAreMade(events: seq<ModelEvent>, partials: map<string, Partial>, order: seq<string>,
                        parse: string -> Option<CanonicalJson.Json>, freshId: string -> string)
    requires Joined(events, partials) && Converted(partials, map[], order, IdsOf(events), true)
    requires Parsed(partials, order, parse)
    ensures MadeOf(events, Finished(partials, order, parse, freshId), order, parse, freshId)
  {
    var calls := Finished(partials, order, parse, freshId);
    FinishedCount(partials, order, parse, freshId);
    forall k | 0 <= k < |calls| ensures Made(events, order[k], calls[k], parse, freshId) {
      FinishedIsMade(events, partials, order, k, parse, freshId);
    }
    forall slot ensures Called(events, slot, order) {
      JoinedIsCalled(events, partials, order, slot);
    }
  }

  lemma {:induction false} FinishedCount(partials: map<string, Partial>, order: seq<string>,
                                         parse: string -> Option<CanonicalJson.Json>, freshId: string -> string)
    ensures |Finished(partials, order, parse, freshId)| == |order|
  {
    if order != [] {
      FinishedAt(partials, order, 0, parse, freshId);
    }
  }

  lemma JoinedIsCalled(events: seq<ModelEvent>, partials: map<string, Partial>, order: seq<string>, slot: string)
    requires JoinedSlot(events, partials, slot)
    requires slot in partials && Named(partials[slot], IdsOf(events)) ==> slot in order
    ensures Called(events, slot, order)
  {
    var from :| JoinedFrom(events, partials, slot, from);
    assert CalledFrom(events, slot, from, order);
  }

  predicate NoneComplete(events: seq<ModelEvent>) {
    forall i :: 0 <= i < |events| ==> !events[i].ToolCallComplete?
  }

  lemma BeginsAtStart(events: seq<ModelEvent>, slot: string, from: nat)
    requires NoneComplete(events) && from <= |events| && Begins(events, slot, from)
    ensures from == 0
  {
  }

  lemma {:induction false} NoIds(events: seq<ModelEvent>)
    requires NoneComplete(events)
    ensures IdsOf(events) == {}
  {
    if events != [] {
      NoIds(events[..|events| - 1]);
    }
  }

  /** Of a stream without complete calls, every named slot becomes one call, with
      the parse of all its arguments, and there are no others. */
  lemma StreamedCalls(events: seq<ModelEvent>, calls: seq<ToolCall>, order: seq<string>,
                      parse: string -> Option<CanonicalJson.Json>, freshId: string -> string)
    requires NoneComplete(events) && MadeOf(events, calls, order, parse, freshId)
    ensures forall slot :: slot in order <==> HasDelta(events, slot) && OrEmpty(NameOf(events, slot)) != ""
    ensures |order| == |calls| && forall k :: 0 <= k < |calls| ==>
      && Some(calls[k].name) == NameOf(events, order[k])
      && parse(if ArgumentsOf(events, order[k]) == "" then "{}" else ArgumentsOf(events, order[k])) == Some(calls[k].arguments)
      && calls[k].id == if OrEmpty(IdOf(events, order[k])) == "" then freshId(order[k]) else IdOf(events, order[k]).value
  {
    NoIds(events);
    assert events[0..] == events;
    forall k | 0 <= k < |calls| ensures MadeFrom(events, order[k], 0, calls[k], parse, freshId) {
      var from :| MadeFrom(events, order[k], from, calls[k], parse, freshId);
      BeginsAtStart(events, order[k], from);
    }
    forall slot ensures CalledFrom(events, slot, 0, order) {
      assert Called(events, slot, order);
      var from :| CalledFrom(events, slot, from, order);
      BeginsAtStart(events, slot, from);
    }
    forall slot ensures slot in order <==> HasDelta(events, slot) && OrEmpty(NameOf(events, slot)) != "" {
      assert CalledFrom(events, slot, 0, order);
      if slot in order {
        var k :| 0 <= k < |order| && order[k] == slot;
        assert MadeFrom(events, order[k], 0, calls[k], parse, freshId);
      }
    }
  }
}
